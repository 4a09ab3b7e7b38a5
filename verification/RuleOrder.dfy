/** Moving AI rules ahead of the broad rule sets in a Clash rule text. */
module RuleOrder {
  import opened Basics

  // ----- Lines -----

  /** Splitting at newlines: always at least one line, possibly empty ones. */
  function Split(s: string): (lines: seq<string>)
    ensures lines != []
  {
    if s == "" then [""]
    else
      var init := Split(s[..|s| - 1]);
      if s[|s| - 1] == '\n' then init + [""]
      else init[..|init| - 1] + [init[|init| - 1] + [s[|s| - 1]]]
  }

  function Join(lines: seq<string>): string
    requires lines != []
  {
    if |lines| == 1 then lines[0] else Join(lines[..|lines| - 1]) + "\n" + lines[|lines| - 1]
  }

  predicate Plain(lines: seq<string>) {
    lines != [] && forall l <- lines :: '\n' !in l
  }

  lemma {:induction false} SplitIsPlain(s: string)
    ensures Plain(Split(s))
  {
    if s != "" {
      SplitIsPlain(s[..|s| - 1]);
    }
  }

  lemma JoinSnoc(front: seq<string>, last: string)
    ensures Join(front + [last]) == if front == [] then last else Join(front) + "\n" + last
  {
    if front != [] {
      assert (front + [last])[..|front|] == front;
    }
  }

  lemma SplitSnoc(s: string, c: char, front: seq<string>, last: string)
    requires Split(s) == front + [last]
    ensures Split(s + [c]) == if c == '\n' then front + [last] + [""] else front + [last + [c]]
  {
    assert (s + [c])[..|s|] == s;
    assert (front + [last])[..|front|] == front;
  }

  lemma Halves(lines: seq<string>)
    requires lines != []
    ensures lines == lines[..|lines| - 1] + [lines[|lines| - 1]]
  {
  }

  lemma Longer(a: string, b: string, c: char)
    ensures a + "\n" + (b + [c]) == a + "\n" + b + [c] && a + (b + [c]) == a + b + [c]
  {
  }

  lemma {:induction false} JoinSplit(s: string)
    ensures Join(Split(s)) == s
  {
    if s != "" {
      var init, c := s[..|s| - 1], s[|s| - 1];
      var front, last := Split(init)[..|Split(init)| - 1], Split(init)[|Split(init)| - 1];
      JoinSplit(init);
      Halves(Split(init));
      assert s == init + [c];
      SplitSnoc(init, c, front, last);
      JoinSnoc(front, last);
      if c == '\n' {
        JoinSnoc(front + [last], "");
      } else {
        JoinSnoc(front, last + [c]);
        if front != [] {
          Longer(Join(front), last, c);
        }
      }
    }
  }

  /** Appending text without newlines extends the last line. */
  lemma {:induction false} SplitExtend(s: string, l: string, front: seq<string>, last: string)
    requires '\n' !in l && Split(s) == front + [last]
    ensures Split(s + l) == front + [last + l]
    decreases |l|
  {
    if l == "" {
      assert s + l == s && last + l == last;
    } else {
      var init, c := l[..|l| - 1], l[|l| - 1];
      SplitExtend(s, init, front, last);
      assert l == init + [c];
      Longer(s, init, c);
      Longer(last, init, c);
      SplitSnoc(s + init, c, front, last + init);
    }
  }

  lemma {:induction false} SplitJoin(lines: seq<string>)
    requires Plain(lines)
    ensures Split(Join(lines)) == lines
    decreases |lines|
  {
    Halves(lines);
    var front, last := lines[..|lines| - 1], lines[|lines| - 1];
    JoinSnoc(front, last);
    if front == [] {
      assert Split("") == [] + [""];
      SplitExtend("", last, [], "");
      assert "" + last == last;
    } else {
      SplitJoin(front);
      Halves(front);
      SplitSnoc(Join(front), '\n', front[..|front| - 1], front[|front| - 1]);
      SplitExtend(Join(front) + ['\n'], last, front, "");
      assert "" + last == last;
      assert Join(front) + "\n" == Join(front) + ['\n'];
    }
  }

  // ----- The new order -----

  predicate OccursAt(line: string, i: nat, part: string) {
    i + |part| <= |line| && line[i..i + |part|] == part
  }

  predicate Contains(line: string, part: string) {
    exists i: nat :: i <= |line| && OccursAt(line, i, part)
  }

  predicate IsAI(line: string) {
    Contains(line, ",\U{1F916} AI \U{670D}\U{52A1}") || Contains(line, ",\U{1F4BB} AI \U{7F16}\U{7A0B}")
  }

  predicate IsBroad(line: string) {
    Contains(line, "RULE-SET,google,") || Contains(line, "RULE-SET,proxy,")
  }

  predicate IsMatch(line: string) {
    Contains(line, "MATCH,")
  }

  /** The elements for which the test gives the wanted answer, in order. */
  function Pick<T>(xs: seq<T>, test: T -> bool, wanted: bool): (r: seq<T>)
    ensures forall x <- r :: test(x) == wanted
  {
    if xs == [] then []
    else
      var rest := Pick(xs[..|xs| - 1], test, wanted);
      if test(xs[|xs| - 1]) == wanted then rest + [xs[|xs| - 1]] else rest
  }

  /** The first element for which the test holds, or the number of elements. */
  function First<T>(xs: seq<T>, test: T -> bool): (k: nat)
    ensures k <= |xs| && (k < |xs| ==> test(xs[k]))
    ensures forall i :: 0 <= i < k ==> !test(xs[i])
  {
    if xs == [] then 0
    else if test(xs[0]) then 0
    else First(xs[1..], test) + 1
  }

  /** Where the AI rules go: before the first broad rule set, else before the first catch-all rule, else nowhere. */
  function InsertAt<T>(remaining: seq<T>, broad: T -> bool, catchAll: T -> bool): (r: Option<nat>)
    ensures r.Some? ==> r.value <= |remaining|
  {
    if First(remaining, broad) < |remaining| then Some(First(remaining, broad))
    else if First(remaining, catchAll) < |remaining| then Some(First(remaining, catchAll))
    else None
  }

  function Ordered<T(==)>(xs: seq<T>, ai: T -> bool, broad: T -> bool, catchAll: T -> bool): seq<T> {
    var picked, remaining := Pick(xs, ai, true), Pick(xs, ai, false);
    if picked == [] then xs
    else
      match InsertAt(remaining, broad, catchAll)
      case None => xs
      case Some(k) => remaining[..k] + picked + remaining[k..]
  }

  lemma {:induction false} PickConcat<T>(a: seq<T>, b: seq<T>, test: T -> bool, wanted: bool)
    ensures Pick(a + b, test, wanted) == Pick(a, test, wanted) + Pick(b, test, wanted)
    decreases |b|
  {
    if b == [] {
      assert a + b == a;
    } else {
      assert (a + b)[..|a + b| - 1] == a + b[..|b| - 1];
      PickConcat(a, b[..|b| - 1], test, wanted);
    }
  }

  lemma {:induction false} PickAll<T>(xs: seq<T>, test: T -> bool, all: bool)
    requires forall x <- xs :: test(x) == all
    ensures Pick(xs, test, all) == xs && Pick(xs, test, !all) == []
  {
    if xs != [] {
      PickAll(xs[..|xs| - 1], test, all);
      assert xs[|xs| - 1] in xs;
    }
  }

  lemma PickThree<T>(a: seq<T>, b: seq<T>, c: seq<T>, test: T -> bool, wanted: bool)
    ensures Pick(a + b + c, test, wanted) == Pick(a, test, wanted) + Pick(b, test, wanted) + Pick(c, test, wanted)
  {
    var ab := a + b;
    PickConcat(ab, c, test, wanted);
    PickConcat(a, b, test, wanted);
  }

  lemma EmptyBetween<T>(a: seq<T>, b: seq<T>)
    ensures a + [] + b == a + b && [] + a + [] == a
  {
  }

  /** AI lines keep their order, and so do the others. */
  lemma OrderedIsStable<T>(xs: seq<T>, ai: T -> bool, broad: T -> bool, catchAll: T -> bool, wanted: bool)
    ensures Pick(Ordered(xs, ai, broad, catchAll), ai, wanted) == Pick(xs, ai, wanted)
  {
    var picked, remaining := Pick(xs, ai, true), Pick(xs, ai, false);
    if picked != [] && InsertAt(remaining, broad, catchAll).Some? {
      var k := InsertAt(remaining, broad, catchAll).value;
      var front, back := remaining[..k], remaining[k..];
      assert remaining == front + back;
      PickThree(front, picked, back, ai, wanted);
      PickAll(picked, ai, true);
      PickAll(front, ai, false);
      PickAll(back, ai, false);
      EmptyBetween(front, back);
      EmptyBetween(picked, []);
    }
  }

  lemma {:induction false} PickSplits<T>(xs: seq<T>, test: T -> bool)
    ensures multiset(Pick(xs, test, true)) + multiset(Pick(xs, test, false)) == multiset(xs)
  {
    if xs != [] {
      PickSplits(xs[..|xs| - 1], test);
      assert xs == xs[..|xs| - 1] + [xs[|xs| - 1]];
    }
  }

  /** No line is lost, added or changed. */
  lemma OrderedIsPermutation<T>(xs: seq<T>, ai: T -> bool, broad: T -> bool, catchAll: T -> bool)
    ensures multiset(Ordered(xs, ai, broad, catchAll)) == multiset(xs)
  {
    PickSplits(xs, ai);
    PickSplits(Ordered(xs, ai, broad, catchAll), ai);
    OrderedIsStable(xs, ai, broad, catchAll, true);
    OrderedIsStable(xs, ai, broad, catchAll, false);
  }

  lemma {:induction false} HasElement<T>(xs: seq<T>, i: nat, test: T -> bool)
    requires i < |xs|
    ensures xs[i] in Pick(xs, test, test(xs[i]))
  {
    if i < |xs| - 1 {
      HasElement(xs[..|xs| - 1], i, test);
    }
  }

  /** Every AI line comes before every broad rule set that is not itself an AI line. */
  lemma AIBeforeBroad<T>(xs: seq<T>, ai: T -> bool, broad: T -> bool, catchAll: T -> bool, i: nat, j: nat)
    requires var o := Ordered(xs, ai, broad, catchAll);
             i < |o| && j < |o| && ai(o[i]) && broad(o[j]) && !ai(o[j])
    ensures i < j
  {
    var o, picked, remaining := Ordered(xs, ai, broad, catchAll), Pick(xs, ai, true), Pick(xs, ai, false);
    HasElement(o, i, ai);
    HasElement(o, j, ai);
    OrderedIsStable(xs, ai, broad, catchAll, true);
    OrderedIsStable(xs, ai, broad, catchAll, false);
    var k := First(remaining, broad);
    assert o == remaining[..k] + picked + remaining[k..];
  }

  /** The AI lines go right before the first of the other lines that is a broad rule set, and no further ahead. */
  lemma GoesBeforeFirstBroad<T>(xs: seq<T>, ai: T -> bool, broad: T -> bool, catchAll: T -> bool, k: nat)
    requires var others := Pick(xs, ai, false); k < |others| && broad(others[k]) && forall i :: 0 <= i < k ==> !broad(others[i])
    ensures var others := Pick(xs, ai, false);
            multiset(Ordered(xs, ai, broad, catchAll)) == multiset(xs)
            && (Pick(xs, ai, true) != [] ==> Ordered(xs, ai, broad, catchAll) == others[..k] + Pick(xs, ai, true) + others[k..])
  {
    OrderedIsPermutation(xs, ai, broad, catchAll);
  }

  /** Without one they go before the first catch-all rule, and without either they stay where they are. */
  lemma GoesBeforeFirstCatchAll<T>(xs: seq<T>, ai: T -> bool, broad: T -> bool, catchAll: T -> bool, k: nat)
    requires forall x <- Pick(xs, ai, false) :: !broad(x)
    ensures var others := Pick(xs, ai, false);
            && ((forall x <- others :: !catchAll(x)) ==> Ordered(xs, ai, broad, catchAll) == xs)
            && (Pick(xs, ai, true) != [] && k < |others| && catchAll(others[k]) && (forall i :: 0 <= i < k ==> !catchAll(others[i])) ==>
                  Ordered(xs, ai, broad, catchAll) == others[..k] + Pick(xs, ai, true) + others[k..])
  {
    var others := Pick(xs, ai, false);
    assert First(others, broad) == |others|;
    if forall x <- others :: !catchAll(x) {
      assert First(others, catchAll) == |others|;
    }
  }

  /** Ordering what is already ordered changes nothing. */
  lemma OrderedTwice<T>(xs: seq<T>, ai: T -> bool, broad: T -> bool, catchAll: T -> bool)
    ensures Ordered(Ordered(xs, ai, broad, catchAll), ai, broad, catchAll) == Ordered(xs, ai, broad, catchAll)
  {
    OrderedIsStable(xs, ai, broad, catchAll, true);
    OrderedIsStable(xs, ai, broad, catchAll, false);
  }

  // ----- The function on texts -----

  /** The rule lines in their new order. */
  function Rearranged(rules: string): seq<string> {
    Ordered(Split(rules), IsAI, IsBroad, IsMatch)
  }

  lemma RearrangedIsPlain(rules: string)
    ensures Plain(Rearranged(rules))
  {
    SplitIsPlain(rules);
    OrderedIsPermutation(Split(rules), IsAI, IsBroad, IsMatch);
    var lines := Split(rules);
    forall l <- Rearranged(rules) ensures '\n' !in l {
      assert l in multiset(lines);
    }
    assert |Rearranged(rules)| == |multiset(lines)| == |lines|;
  }

  method Partition(lines: seq<string>) returns (aiRules: seq<string>, remaining: seq<string>)
    ensures aiRules == Pick(lines, IsAI, true) && remaining == Pick(lines, IsAI, false)
  {
    aiRules, remaining := [], [];
    for i := 0 to |lines|
      invariant aiRules == Pick(lines[..i], IsAI, true) && remaining == Pick(lines[..i], IsAI, false)
    {
      assert lines[..i + 1][..i] == lines[..i];
      if IsAI(lines[i]) {
        aiRules := aiRules + [lines[i]];
        continue;
      }
      remaining := remaining + [lines[i]];
    }
    assert lines[..|lines|] == lines;
  }

  method FindLine(lines: seq<string>, test: string -> bool) returns (k: int)
    ensures k == if First(lines, test) < |lines| then First(lines, test) else -1
  {
    for i := 0 to |lines|
      invariant i <= First(lines, test)
    {
      if test(lines[i]) {
        return i;
      }
    }
    return -1;
  }

  /** The lines of the result are the rearranged lines; when nothing moves, the text is returned as it is. */
  method PrioritizeAIRules(rules: string) returns (out: string)
    ensures Split(out) == Rearranged(rules) && out == Join(Split(out))
  {
    JoinSplit(rules);
    var lines := Split(rules);
    var aiRules, remaining := Partition(lines);
    if |aiRules| == 0 {
      return rules;
    }
    var insertAt := FindLine(remaining, IsBroad);
    if insertAt == -1 {
      insertAt := FindLine(remaining, IsMatch);
    }
    if insertAt == -1 {
      return rules;
    }
    var ordered := remaining[..insertAt];
    ordered := ordered + aiRules;
    ordered := ordered + remaining[insertAt..];
    RearrangedIsPlain(rules);
    SplitJoin(ordered);
    out := Join(ordered);
  }

  /** In the text: a line for one of the two AI groups comes before every other line for the google or the proxy rule set. */
  lemma AILinesComeFirst(rules: string, out: string, i: nat, j: nat)
    requires Split(out) == Rearranged(rules)
    requires i < |Split(out)| && j < |Split(out)|
    requires Contains(Split(out)[i], ",\U{1F916} AI \U{670D}\U{52A1}") || Contains(Split(out)[i], ",\U{1F4BB} AI \U{7F16}\U{7A0B}")
    requires Contains(Split(out)[j], "RULE-SET,google,") || Contains(Split(out)[j], "RULE-SET,proxy,")
    requires !Contains(Split(out)[j], ",\U{1F916} AI \U{670D}\U{52A1}") && !Contains(Split(out)[j], ",\U{1F4BB} AI \U{7F16}\U{7A0B}")
    ensures i < j
  {
    AIBeforeBroad(Split(rules), IsAI, IsBroad, IsMatch, i, j);
  }

  /** A second application changes nothing. */
  lemma PrioritizedTwice(rules: string, once: string, twice: string)
    requires Split(once) == Rearranged(rules) && once == Join(Split(once))
    requires Split(twice) == Rearranged(once) && twice == Join(Split(twice))
    ensures once == twice
  {
    OrderedTwice(Split(rules), IsAI, IsBroad, IsMatch);
  }
}
