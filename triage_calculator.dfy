/**
 * TriageCalculator: ranks survivors by triage priority, groups them into the four categories
 * (IMMEDIATE, URGENT, DELAYED, MINOR) and renders the rescue order and per-survivor advice.
 */
module Triage {
  import opened Wrappers
  import opened Seqs
  import opened JavaText
  import opened Survivors
  import opened StableSort

  /** The age priority the categories are sorted by. */
  function AgeKey(s: SurvivorInfo): int {
    s.AgeGroup().TriagePriority()
  }

  /** The survivors of one injury level. */
  function HasLevel(l: InjuryLevel): SurvivorInfo -> bool {
    (s: SurvivorInfo) => s.injuryLevel == l
  }

  /** The order of the groups: IMMEDIATE (critical), URGENT (serious), DELAYED (minor), MINOR (none). */
  const CATEGORY_ORDER: seq<InjuryLevel> := [Critical, Serious, Minor, NoInjury]

  /**
   * calculateTriage: a new list, sorted by triage priority with Collections.sort. The input is a
   * value, so it is unchanged.
   */
  method CalculateTriage(survivors: seq<SurvivorInfo>) returns (sorted: seq<SurvivorInfo>)
    ensures sorted == SortBy(survivors, TriagePriority)
    ensures SortedBy(sorted, TriagePriority)
    ensures multiset(sorted) == multiset(survivors)
    ensures forall k :: Filter(HasKey(TriagePriority, k), sorted) == Filter(HasKey(TriagePriority, k), survivors)
  {
    var copy := survivors;
    sorted := SortBy(copy, TriagePriority);
    SortBySorted(copy, TriagePriority);
    SortByPermutes(copy, TriagePriority);
    forall k ensures Filter(HasKey(TriagePriority, k), sorted) == Filter(HasKey(TriagePriority, k), survivors) {
      SortByStable(copy, TriagePriority, k);
    }
  }

  /** One group of groupByTriageCategory: the survivors of `l`, stably sorted by age priority. */
  function Category(survivors: seq<SurvivorInfo>, l: InjuryLevel): seq<SurvivorInfo> {
    SortBy(Filter(HasLevel(l), survivors), AgeKey)
  }

  /** Every survivor lands in exactly one of the four level filters. */
  lemma {:induction false} LevelsPartition(s: seq<SurvivorInfo>)
    ensures multiset(Filter(HasLevel(Critical), s)) + multiset(Filter(HasLevel(Serious), s)) +
            multiset(Filter(HasLevel(Minor), s)) + multiset(Filter(HasLevel(NoInjury), s)) == multiset(s)
  {
    if s != [] {
      LevelsPartition(s[1..]);
      assert s == [s[0]] + s[1..];
      assert multiset(s) == multiset{s[0]} + multiset(s[1..]);
    }
  }

  /** The properties of each group that groupByTriageCategory promises. */
  lemma CategoryProperties(survivors: seq<SurvivorInfo>, l: InjuryLevel)
    ensures forall i :: 0 <= i < |Category(survivors, l)| ==> Category(survivors, l)[i].injuryLevel == l
    ensures SortedBy(Category(survivors, l), AgeKey)
    ensures multiset(Category(survivors, l)) == multiset(Filter(HasLevel(l), survivors))
    ensures forall k :: Filter(HasKey(AgeKey, k), Category(survivors, l)) ==
                        Filter(HasKey(AgeKey, k), Filter(HasLevel(l), survivors))
  {
    var members := Filter(HasLevel(l), survivors);
    var g := Category(survivors, l);
    SortBySorted(members, AgeKey);
    SortByPermutes(members, AgeKey);
    FilterMembers(HasLevel(l), survivors);
    forall i | 0 <= i < |g| ensures g[i].injuryLevel == l {
      assert g[i] in multiset(members);
      var j :| 0 <= j < |members| && members[j] == g[i];
      assert HasLevel(l)(members[j]);
    }
    forall k ensures Filter(HasKey(AgeKey, k), g) == Filter(HasKey(AgeKey, k), members) {
      SortByStable(members, AgeKey, k);
    }
  }

  /** The single pass of groupByTriageCategory: each survivor is appended to its level's list. */
  method SplitByLevel(survivors: seq<SurvivorInfo>)
    returns (immediate: seq<SurvivorInfo>, urgent: seq<SurvivorInfo>, delayed: seq<SurvivorInfo>, minor: seq<SurvivorInfo>)
    ensures immediate == Filter(HasLevel(Critical), survivors)
    ensures urgent == Filter(HasLevel(Serious), survivors)
    ensures delayed == Filter(HasLevel(Minor), survivors)
    ensures minor == Filter(HasLevel(NoInjury), survivors)
  {
    immediate, urgent, delayed, minor := [], [], [], [];
    for i := 0 to |survivors|
      invariant immediate == Filter(HasLevel(Critical), survivors[..i])
      invariant urgent == Filter(HasLevel(Serious), survivors[..i])
      invariant delayed == Filter(HasLevel(Minor), survivors[..i])
      invariant minor == Filter(HasLevel(NoInjury), survivors[..i])
    {
      var s := survivors[i];
      assert survivors[..i + 1] == survivors[..i] + [s];
      FilterSnoc(HasLevel(Critical), survivors[..i], s);
      FilterSnoc(HasLevel(Serious), survivors[..i], s);
      FilterSnoc(HasLevel(Minor), survivors[..i], s);
      FilterSnoc(HasLevel(NoInjury), survivors[..i], s);
      match s.injuryLevel
      case Critical => immediate := immediate + [s];
      case Serious => urgent := urgent + [s];
      case Minor => delayed := delayed + [s];
      case NoInjury => minor := minor + [s];
    }
    assert survivors[..|survivors|] == survivors;
  }

  /** The four categories together are a permutation of the survivors. */
  lemma CategoriesPermute(survivors: seq<SurvivorInfo>)
    ensures multiset(Category(survivors, Critical) + Category(survivors, Serious) +
                     Category(survivors, Minor) + Category(survivors, NoInjury)) == multiset(survivors)
  {
    LevelsPartition(survivors);
    SortByPermutes(Filter(HasLevel(Critical), survivors), AgeKey);
    SortByPermutes(Filter(HasLevel(Serious), survivors), AgeKey);
    SortByPermutes(Filter(HasLevel(Minor), survivors), AgeKey);
    SortByPermutes(Filter(HasLevel(NoInjury), survivors), AgeKey);
  }

  /**
   * groupByTriageCategory: one pass sorts the survivors into four lists by injury level, then
   * each list is sorted by age priority. The groups come in CATEGORY_ORDER, each holds exactly that
   * level's survivors, and together they are a permutation of the input.
   */
  method GroupByTriageCategory(survivors: seq<SurvivorInfo>) returns (groups: seq<seq<SurvivorInfo>>)
    ensures |groups| == 4
    ensures forall c :: 0 <= c < 4 ==> groups[c] == Category(survivors, CATEGORY_ORDER[c])
    ensures forall c, i :: 0 <= c < 4 && 0 <= i < |groups[c]| ==> groups[c][i].injuryLevel == CATEGORY_ORDER[c]
    ensures forall c :: 0 <= c < 4 ==> SortedBy(groups[c], AgeKey)
    ensures multiset(groups[0] + groups[1] + groups[2] + groups[3]) == multiset(survivors)
  {
    var immediate, urgent, delayed, minor := SplitByLevel(survivors);
    groups := [SortBy(immediate, AgeKey), SortBy(urgent, AgeKey), SortBy(delayed, AgeKey), SortBy(minor, AgeKey)];
    forall c | 0 <= c < 4
      ensures groups[c] == Category(survivors, CATEGORY_ORDER[c])
      ensures forall i :: 0 <= i < |groups[c]| ==> groups[c][i].injuryLevel == CATEGORY_ORDER[c]
      ensures SortedBy(groups[c], AgeKey)
    {
      CategoryProperties(survivors, CATEGORY_ORDER[c]);
      if c == 0 {
        assert groups[c] == Category(survivors, Critical);
      } else if c == 1 {
        assert groups[c] == Category(survivors, Serious);
      } else if c == 2 {
        assert groups[c] == Category(survivors, Minor);
      } else {
        assert groups[c] == Category(survivors, NoInjury);
      }
    }
    CategoriesPermute(survivors);
  }

  /** Within a category a child is ranked ahead of an adult. */
  lemma ChildBeforeAdult(g: seq<SurvivorInfo>, i: int, j: int)
    requires SortedBy(g, AgeKey)
    requires 0 <= i < |g| && 0 <= j < |g|
    requires g[i].AgeGroup() == Child && g[j].AgeGroup() == Adult
    ensures i < j
  {
  }

  // ── Rescue sequence ─────────────────────────────────────────────────────────

  const RESCUE_HEADER := "Rescue Priority Order:\n\n"

  /** One line of the rescue sequence: "k. name (label) @ location\n". */
  function RescueLine(k: int, s: SurvivorInfo): (r: string)
    ensures StartsWith(r, IntToString(k) + ". ")
    ensures r[|r| - 1] == '\n'
  {
    var n := IntToString(k) + ". ";
    var r := n + Text(s.name) + " (" + s.injuryLevel.Label() + ")" + " @ " + Text(s.location) + "\n";
    assert r[..|n|] == n;
    r
  }

  /** The lines for `l`, numbered from `k`. */
  function NumberedLines(l: seq<SurvivorInfo>, k: int): string {
    if l == [] then "" else RescueLine(k, l[0]) + NumberedLines(l[1..], k + 1)
  }

  lemma {:induction false} NumberedLinesSnoc(l: seq<SurvivorInfo>, x: SurvivorInfo, k: int)
    ensures NumberedLines(l + [x], k) == NumberedLines(l, k) + RescueLine(k + |l|, x)
  {
    if l == [] {
      assert NumberedLines([x], k) == RescueLine(k, x) + NumberedLines([], k + 1);
    } else {
      assert (l + [x])[0] == l[0];
      assert (l + [x])[1..] == l[1..] + [x];
      NumberedLinesSnoc(l[1..], x, k + 1);
    }
  }

  /** Appending the next line extends the rendering by one survivor. */
  lemma RenderStep(triaged: seq<SurvivorInfo>, i: nat)
    requires i < |triaged|
    ensures RESCUE_HEADER + NumberedLines(triaged[..i], 1) + RescueLine(i + 1, triaged[i]) ==
            RESCUE_HEADER + NumberedLines(triaged[..i + 1], 1)
  {
    assert triaged[..i + 1] == triaged[..i] + [triaged[i]];
    NumberedLinesSnoc(triaged[..i], triaged[i], 1);
  }

  /** The StringBuilder loop of getRescueSequence over an already ranked list. */
  method RenderRescueSequence(triaged: seq<SurvivorInfo>) returns (r: string)
    ensures r == RESCUE_HEADER + NumberedLines(triaged, 1)
  {
    var sb := RESCUE_HEADER;
    var count := 1;
    for i := 0 to |triaged|
      invariant count == i + 1
      invariant sb == RESCUE_HEADER + NumberedLines(triaged[..i], 1)
    {
      RenderStep(triaged, i);
      sb := sb + RescueLine(count, triaged[i]);
      count := count + 1;
    }
    assert triaged[..|triaged|] == triaged;
    r := sb;
  }

  /**
   * getRescueSequence: the header, then one numbered line per survivor in calculateTriage order,
   * the counter starting at 1.
   */
  method GetRescueSequence(survivors: seq<SurvivorInfo>) returns (r: string)
    ensures r == RESCUE_HEADER + NumberedLines(SortBy(survivors, TriagePriority), 1)
  {
    var triaged := CalculateTriage(survivors);
    r := RenderRescueSequence(triaged);
  }

  /** The number of occurrences of `c` in `s`. */
  function CountChar(c: char, s: string): nat {
    if s == [] then 0 else (if s[0] == c then 1 else 0) + CountChar(c, s[1..])
  }

  lemma {:induction false} CountCharAppend(c: char, a: string, b: string)
    ensures CountChar(c, a + b) == CountChar(c, a) + CountChar(c, b)
  {
    if a != [] {
      assert (a + b)[0] == a[0];
      assert (a + b)[1..] == a[1..] + b;
      CountCharAppend(c, a[1..], b);
    } else {
      assert a + b == b;
    }
  }

  lemma {:induction false} CountCharAbsent(c: char, s: string)
    requires c !in s
    ensures CountChar(c, s) == 0
  {
    if s != [] {
      CountCharAbsent(c, s[1..]);
    }
  }

  /** A survivor whose name and location have no line break. */
  predicate SingleLine(s: SurvivorInfo) {
    '\n' !in Text(s.name) && '\n' !in Text(s.location)
  }

  /** A rescue line holds exactly one line break, at its end. */
  lemma RescueLineIsOneLine(k: int, s: SurvivorInfo)
    requires SingleLine(s)
    ensures CountChar('\n', RescueLine(k, s)) == 1
  {
    var num := IntToString(k);
    assert '\n' !in num by {
      if k < 0 {
        assert num[1..] == NatToString(0 - k);
      }
    }
    var body := num + ". " + Text(s.name) + " (" + s.injuryLevel.Label() + ")" + " @ " + Text(s.location);
    assert '\n' !in body;
    CountCharAbsent('\n', body);
    CountCharAppend('\n', body, "\n");
    assert RescueLine(k, s) == body + "\n";
  }

  /** The rescue sequence has one line per survivor. */
  lemma {:induction false} NumberedLinesCount(l: seq<SurvivorInfo>, k: int)
    requires forall i :: 0 <= i < |l| ==> SingleLine(l[i])
    ensures CountChar('\n', NumberedLines(l, k)) == |l|
  {
    if l != [] {
      RescueLineIsOneLine(k, l[0]);
      NumberedLinesCount(l[1..], k + 1);
      CountCharAppend('\n', RescueLine(k, l[0]), NumberedLines(l[1..], k + 1));
    }
  }

  /** The sequence opens with the most urgent survivor, numbered 1. */
  lemma RescueSequenceOpensWithMostUrgent(survivors: seq<SurvivorInfo>)
    requires |survivors| > 0
    ensures var t := SortBy(survivors, TriagePriority);
            StartsWith(NumberedLines(t, 1), RescueLine(1, t[0])) &&
            forall i :: 0 <= i < |survivors| ==> TriagePriority(t[0]) <= TriagePriority(survivors[i])
  {
    var t := SortBy(survivors, TriagePriority);
    SortByFirstIsLeast(survivors, TriagePriority);
    var line := RescueLine(1, t[0]);
    assert NumberedLines(t, 1) == line + NumberedLines(t[1..], 2);
    assert NumberedLines(t, 1)[..|line|] == line;
  }

  // ── Recommendation ──────────────────────────────────────────────────────────

  /** The warning symbol that opens each level's advice. */
  function Symbol(l: InjuryLevel): (r: string)
    ensures |r| >= 1 && r[0] >= '\U{2600}'
  {
    match l
    case Critical => "\U{26A0}\U{FE0F}"
    case Serious => "\U{1F534}"
    case Minor => "\U{1F7E1}"
    case NoInjury => "\U{1F7E2}"
  }

  function Advice(l: InjuryLevel): (r: string)
    ensures |r| >= 1 && r[|r| - 1] == ' '
  {
    match l
    case Critical => "CRITICAL: Immediate evacuation and advanced life support needed. "
    case Serious => "URGENT: Requires immediate attention. "
    case Minor => "DELAYED: Monitor closely, stabilise when possible. "
    case NoInjury => "MINOR: Ambulatory, can assist others. "
  }

  /** The opening of getTriageRecommendation for each level. */
  function Headline(l: InjuryLevel): (r: string)
    ensures StartsWith(r, Symbol(l) + " ")
  {
    var r := Symbol(l) + " " + Advice(l);
    assert r[..|Symbol(l) + " "|] == Symbol(l) + " ";
    r
  }

  /** getTriageRecommendation: the level's headline, then the age group label and the location. */
  function TriageRecommendation(s: SurvivorInfo): (r: string)
    ensures StartsWith(r, Headline(s.injuryLevel))
  {
    var h := Headline(s.injuryLevel);
    var r := h + "Age: " + s.AgeGroup().Label() + ", Location: " + Text(s.location);
    assert r[..|h|] == h;
    r
  }

  /** Each headline opens with its own symbol. */
  lemma HeadlineMarksDiffer(a: InjuryLevel, b: InjuryLevel)
    requires Headline(a)[0] == Headline(b)[0]
    ensures a == b
  {
    assert Headline(a)[0] == Symbol(a)[0];
    assert Headline(b)[0] == Symbol(b)[0];
  }

  /** The headline tells the level apart: a recommendation starts with its own level's headline only. */
  lemma RecommendationDeterminesLevel(s: SurvivorInfo, l: InjuryLevel)
    ensures StartsWith(TriageRecommendation(s), Headline(l)) <==> s.injuryLevel == l
  {
    var r := TriageRecommendation(s);
    var h := Headline(s.injuryLevel);
    assert r[..|h|] == h;
    assert r[0] == h[0];
    if StartsWith(r, Headline(l)) {
      var hl := Headline(l);
      assert r[..|hl|][0] == r[0];
      assert hl[0] == h[0];
      HeadlineMarksDiffer(s.injuryLevel, l);
    }
  }
}
