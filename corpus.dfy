/**
 * The fixed item corpus of the search box and the case-insensitive substring
 * filter run over it on a cache miss.
 */
module Corpus {

  /** One suggestion: a stable numeric id and the text shown in the dropdown. */
  datatype Item = Item(id: int, name: string)

  /** ASCII lower-casing of one character (the model's stand-in for `toLowerCase`). */
  function LowerChar(c: char): char {
    if 'A' <= c <= 'Z' then (c as int + 32) as char else c
  }

  /**
   * Lower-cases a string character by character: same length, each upper-case
   * ASCII letter replaced by its own lower-case letter, every other character kept.
   */
  function Lower(s: string): (r: string)
    ensures |r| == |s|
    ensures forall i :: 0 <= i < |r| ==> !('A' <= r[i] <= 'Z')
    ensures forall i :: 0 <= i < |r| && 'A' <= s[i] <= 'Z' ==>
              'a' <= r[i] <= 'z' && r[i] as int - 'a' as int == s[i] as int - 'A' as int
    ensures forall i :: 0 <= i < |r| && !('A' <= s[i] <= 'Z') ==> r[i] == s[i]
  {
    seq(|s|, i requires 0 <= i < |s| => LowerChar(s[i]))
  }

  /** `p` occurs in `s` starting at position `i`. */
  predicate OccursAt(s: string, p: string, i: nat) {
    i + |p| <= |s| && s[i..i + |p|] == p
  }

  /** Reference meaning of substring containment: some position where `p` occurs. */
  ghost predicate Contains(s: string, p: string) {
    exists i: nat :: OccursAt(s, p, i)
  }

  /** `s.includes(p)`: scans the start positions of `s` from left to right. */
  function Includes(s: string, p: string): (r: bool)
    ensures |p| == 0 ==> r
    ensures r ==> |p| <= |s|
    decreases |s|
  {
    if |p| > |s| then false
    else if s[..|p|] == p then true
    else Includes(s[1..], p)
  }

  /** The scan finds `p` exactly when `p` occurs somewhere in `s`. */
  lemma {:induction false} IncludesIsContains(s: string, p: string)
    ensures Includes(s, p) <==> Contains(s, p)
    decreases |s|
  {
    if |p| > |s| {
      forall i: nat ensures !OccursAt(s, p, i) { }
    } else if s[..|p|] == p {
      assert OccursAt(s, p, 0);
    } else {
      IncludesIsContains(s[1..], p);
      if Contains(s, p) {
        var i: nat :| OccursAt(s, p, i);
        assert i != 0;
        assert s[1..][i - 1..i - 1 + |p|] == s[i..i + |p|];
        assert OccursAt(s[1..], p, i - 1);
      }
      if Contains(s[1..], p) {
        var i: nat :| OccursAt(s[1..], p, i);
        assert s[1..][i..i + |p|] == s[i + 1..i + 1 + |p|];
        assert OccursAt(s, p, i + 1);
      }
    }
  }

  /** The filter predicate: the lower-cased name contains the lower-cased query. */
  predicate Matches(it: Item, query: string)
    ensures Matches(it, query) <==> Contains(Lower(it.name), Lower(query))
  {
    IncludesIsContains(Lower(it.name), Lower(query));
    Includes(Lower(it.name), Lower(query))
  }

  /** `r` keeps some of the elements of `s`, in the order they have in `s`. */
  ghost predicate IsSubsequence<T>(r: seq<T>, s: seq<T>)
    decreases |s|
  {
    if r == [] then true
    else if s == [] then false
    else (r[0] == s[0] && IsSubsequence(r[1..], s[1..])) || IsSubsequence(r, s[1..])
  }

  /**
   * The corpus filter of `filterItems`: exactly the items whose lower-cased name
   * contains the lower-cased query (`FilterCounts` and `FilterKeepsOrder` add that
   * each is kept as often as in `items`, in corpus order).
   */
  function Filter(items: seq<Item>, query: string): (r: seq<Item>)
    ensures forall it :: it in r <==> it in items && Matches(it, query)
    decreases |items|
  {
    if items == [] then []
    else
      var rest := Filter(items[1..], query);
      assert items == [items[0]] + items[1..];
      if Matches(items[0], query) then [items[0]] + rest else rest
  }

  /** A matching item is kept as often as it occurs in `items`; any other item is dropped. */
  lemma {:induction false} FilterCounts(items: seq<Item>, query: string)
    ensures forall it ::
              multiset(Filter(items, query))[it] == if Matches(it, query) then multiset(items)[it] else 0
    decreases |items|
  {
    if items != [] {
      FilterCounts(items[1..], query);
      assert items == [items[0]] + items[1..];
    }
  }

  /** The filter keeps the corpus order. */
  lemma {:induction false} FilterKeepsOrder(items: seq<Item>, query: string)
    ensures IsSubsequence(Filter(items, query), items)
    decreases |items|
  {
    if items != [] {
      FilterKeepsOrder(items[1..], query);
      var r := Filter(items, query);
      if Matches(items[0], query) {
        assert r[0] == items[0] && r[1..] == Filter(items[1..], query);
      }
    }
  }

  /** Filtering a concatenation filters each part. */
  lemma {:induction false} FilterAppend(a: seq<Item>, b: seq<Item>, query: string)
    ensures Filter(a + b, query) == Filter(a, query) + Filter(b, query)
    decreases |a|
  {
    if a == [] {
      assert a + b == b;
    } else {
      var ab := a + b;
      assert ab[0] == a[0] && ab[1..] == a[1..] + b;
      FilterAppend(a[1..], b, query);
      if Matches(a[0], query) {
        calc {
          Filter(ab, query);
          [a[0]] + Filter(a[1..] + b, query);
          [a[0]] + (Filter(a[1..], query) + Filter(b, query));
          ([a[0]] + Filter(a[1..], query)) + Filter(b, query);
        }
      }
    }
  }

  /** When no item's name contains the query, whatever the case, the filter finds nothing. */
  lemma FilterFindsNothing(items: seq<Item>, query: string)
    requires forall it :: it in items ==> !Contains(Lower(it.name), Lower(query))
    ensures Filter(items, query) == []
  {
    forall it | it in items ensures !Matches(it, query) {
      IncludesIsContains(Lower(it.name), Lower(query));
    }
  }

  /** Every string contains the empty string, so the filter alone would keep the whole corpus. */
  lemma {:induction false} FilterEmptyQueryKeepsAll(items: seq<Item>)
    ensures Filter(items, "") == items
    decreases |items|
  {
    if items != [] {
      FilterEmptyQueryKeepsAll(items[1..]);
      assert Lower("") == "";
      assert Matches(items[0], "");
      assert items == [items[0]] + items[1..];
    }
  }

  const ReactTopics: seq<Item> := [
    Item(1, "React Query"),
    Item(2, "React Hooks"),
    Item(3, "React Router"),
    Item(4, "React State Management"),
    Item(5, "React Performance Optimization"),
    Item(6, "React Tutorial"),
    Item(7, "React Best Practices"),
    Item(8, "React vs Vue"),
    Item(9, "React Interview Questions"),
    Item(10, "React Roadmap")
  ]

  const NextJsTopics: seq<Item> := [
    Item(11, "Next.js Server Components"),
    Item(12, "Next.js API Routes"),
    Item(13, "Next.js Middleware"),
    Item(14, "Next.js Authentication"),
    Item(15, "Next.js Performance Optimization"),
    Item(16, "Next.js Tutorial"),
    Item(17, "Next.js vs React"),
    Item(18, "Next.js SEO Best Practices"),
    Item(19, "Next.js Roadmap"),
    Item(20, "Next.js Interview Questions")
  ]

  const TypeScriptTopics: seq<Item> := [
    Item(21, "TypeScript Basics"),
    Item(22, "TypeScript Interfaces"),
    Item(23, "TypeScript Generics"),
    Item(24, "TypeScript Utility Types"),
    Item(25, "TypeScript vs JavaScript"),
    Item(26, "TypeScript Tutorial"),
    Item(27, "TypeScript Best Practices"),
    Item(28, "TypeScript Roadmap"),
    Item(29, "TypeScript Interview Questions"),
    Item(30, "TypeScript Performance Optimization")
  ]

  const NodeJsTopics: seq<Item> := [
    Item(31, "Node.js Streams"),
    Item(32, "Node.js Event Loop"),
    Item(33, "Node.js File System"),
    Item(34, "Node.js Authentication"),
    Item(35, "Node.js WebSockets"),
    Item(36, "Node.js Tutorial"),
    Item(37, "Node.js Best Practices"),
    Item(38, "Node.js vs Deno"),
    Item(39, "Node.js Performance Optimization"),
    Item(40, "Node.js Interview Questions")
  ]

  const ReduxTopics: seq<Item> := [
    Item(41, "Redux Toolkit"),
    Item(42, "Redux Middleware"),
    Item(43, "Redux Thunk"),
    Item(44, "Redux Saga"),
    Item(45, "Redux vs Context API"),
    Item(46, "Redux Tutorial"),
    Item(47, "Redux Best Practices"),
    Item(48, "Redux Performance Optimization"),
    Item(49, "Redux Interview Questions"),
    Item(50, "Redux Roadmap")
  ]

  const TailwindTopics: seq<Item> := [
    Item(51, "Tailwind CSS Grid"),
    Item(52, "Tailwind CSS Flexbox"),
    Item(53, "Tailwind CSS Animations"),
    Item(54, "Tailwind CSS Responsive Design"),
    Item(55, "Tailwind CSS Dark Mode"),
    Item(56, "Tailwind CSS Tutorial"),
    Item(57, "Tailwind CSS Best Practices"),
    Item(58, "Tailwind CSS vs Bootstrap"),
    Item(59, "Tailwind CSS Performance Optimization"),
    Item(60, "Tailwind CSS Interview Questions")
  ]

  /** The sixty dummy items of the component, in source order (ids 1 to 60). */
  const Items: seq<Item> :=
    ReactTopics + NextJsTopics + TypeScriptTopics + NodeJsTopics + ReduxTopics + TailwindTopics

  /** The ids of `s` run up by one from `first`. */
  ghost predicate NumberedFrom(s: seq<Item>, first: int) {
    forall k :: 0 <= k < |s| ==> s[k].id == first + k
  }

  /** Two consecutively numbered runs make one. */
  lemma NumberedConcat(a: seq<Item>, b: seq<Item>, first: int)
    requires NumberedFrom(a, first) && NumberedFrom(b, first + |a|)
    ensures NumberedFrom(a + b, first)
  {
    forall k | 0 <= k < |a + b| ensures (a + b)[k].id == first + k {
      if k >= |a| {
        assert (a + b)[k] == b[k - |a|];
      }
    }
  }

  /** The corpus holds sixty items whose ids are 1 to 60 in order, as in the source. */
  lemma ItemsInSourceOrder()
    ensures |Items| == 60
    ensures forall k :: 0 <= k < |Items| ==> Items[k].id == k + 1
  {
    assert NumberedFrom(ReactTopics, 1);
    assert NumberedFrom(NextJsTopics, 11);
    assert NumberedFrom(TypeScriptTopics, 21);
    assert NumberedFrom(NodeJsTopics, 31);
    assert NumberedFrom(ReduxTopics, 41);
    assert NumberedFrom(TailwindTopics, 51);
    var a := ReactTopics + NextJsTopics;
    NumberedConcat(ReactTopics, NextJsTopics, 1);
    var b := a + TypeScriptTopics;
    NumberedConcat(a, TypeScriptTopics, 1);
    var c := b + NodeJsTopics;
    NumberedConcat(b, NodeJsTopics, 1);
    var d := c + ReduxTopics;
    NumberedConcat(c, ReduxTopics, 1);
    NumberedConcat(d, TailwindTopics, 1);
  }

  /**
   * If the lower-cased query has the letter `lo` at position `k` and the name has
   * neither `lo` nor its upper-case form `up`, the name cannot match the query.
   */
  lemma MissingLetter(name: string, query: string, k: nat, lo: char, up: char)
    requires k < |query| && LowerChar(query[k]) == lo && 'a' <= lo <= 'z' && up as int == lo as int - 32
    requires forall j :: 0 <= j < |name| ==> name[j] != lo && name[j] != up
    ensures !Contains(Lower(name), Lower(query))
  {
    forall i: nat ensures !OccursAt(Lower(name), Lower(query), i) {
      if i + |query| <= |name| {
        var c := name[i + k];
        assert c != lo && c != up;
        assert LowerChar(c) != lo;
        assert Lower(name)[i..i + |query|][k] == LowerChar(c);
        assert Lower(query)[k] == lo;
      }
    }
  }

  /** The query "typescript" finds item 21, "TypeScript Basics", whatever the case. */
  lemma TypeScriptQueryFindsBasics()
    ensures Item(21, "TypeScript Basics") in Filter(Items, "typescript")
  {
    var basics := Item(21, "TypeScript Basics");
    assert basics in TypeScriptTopics;
    assert OccursAt(Lower(basics.name), Lower("typescript"), 0);
    IncludesIsContains(Lower(basics.name), Lower("typescript"));
  }

  const Advanced := "Typescript Advanced"

  /*
   * One lemma per item: each names a letter of the query "Typescript Advanced"
   * that the item's name lacks in both cases, so the name cannot contain the query.
   */
  lemma NoAdvanced1() ensures !Contains(Lower("React Query"), Lower(Advanced)) {
    MissingLetter("React Query", Advanced, 12, 'd', 'D');
  }
  lemma NoAdvanced2() ensures !Contains(Lower("React Hooks"), Lower(Advanced)) {
    MissingLetter("React Hooks", Advanced, 1, 'y', 'Y');
  }
  lemma NoAdvanced3() ensures !Contains(Lower("React Router"), Lower(Advanced)) {
    MissingLetter("React Router", Advanced, 1, 'y', 'Y');
  }
  lemma NoAdvanced4() ensures !Contains(Lower("React State Management"), Lower(Advanced)) {
    MissingLetter("React State Management", Advanced, 1, 'y', 'Y');
  }
  lemma NoAdvanced5() ensures !Contains(Lower("React Performance Optimization"), Lower(Advanced)) {
    MissingLetter("React Performance Optimization", Advanced, 1, 'y', 'Y');
  }
  lemma NoAdvanced6() ensures !Contains(Lower("React Tutorial"), Lower(Advanced)) {
    MissingLetter("React Tutorial", Advanced, 1, 'y', 'Y');
  }
  lemma NoAdvanced7() ensures !Contains(Lower("React Best Practices"), Lower(Advanced)) {
    MissingLetter("React Best Practices", Advanced, 1, 'y', 'Y');
  }
  lemma NoAdvanced8() ensures !Contains(Lower("React vs Vue"), Lower(Advanced)) {
    MissingLetter("React vs Vue", Advanced, 1, 'y', 'Y');
  }
  lemma NoAdvanced9() ensures !Contains(Lower("React Interview Questions"), Lower(Advanced)) {
    MissingLetter("React Interview Questions", Advanced, 1, 'y', 'Y');
  }
  lemma NoAdvanced10() ensures !Contains(Lower("React Roadmap"), Lower(Advanced)) {
    MissingLetter("React Roadmap", Advanced, 1, 'y', 'Y');
  }

  lemma NoAdvanced11() ensures !Contains(Lower("Next.js Server Components"), Lower(Advanced)) {
    MissingLetter("Next.js Server Components", Advanced, 1, 'y', 'Y');
  }
  lemma NoAdvanced12() ensures !Contains(Lower("Next.js API Routes"), Lower(Advanced)) {
    MissingLetter("Next.js API Routes", Advanced, 1, 'y', 'Y');
  }
  lemma NoAdvanced13() ensures !Contains(Lower("Next.js Middleware"), Lower(Advanced)) {
    MissingLetter("Next.js Middleware", Advanced, 1, 'y', 'Y');
  }
  lemma NoAdvanced14() ensures !Contains(Lower("Next.js Authentication"), Lower(Advanced)) {
    MissingLetter("Next.js Authentication", Advanced, 1, 'y', 'Y');
  }
  lemma NoAdvanced15() ensures !Contains(Lower("Next.js Performance Optimization"), Lower(Advanced)) {
    MissingLetter("Next.js Performance Optimization", Advanced, 1, 'y', 'Y');
  }
  lemma NoAdvanced16() ensures !Contains(Lower("Next.js Tutorial"), Lower(Advanced)) {
    MissingLetter("Next.js Tutorial", Advanced, 1, 'y', 'Y');
  }
  lemma NoAdvanced17() ensures !Contains(Lower("Next.js vs React"), Lower(Advanced)) {
    MissingLetter("Next.js vs React", Advanced, 1, 'y', 'Y');
  }
  lemma NoAdvanced18() ensures !Contains(Lower("Next.js SEO Best Practices"), Lower(Advanced)) {
    MissingLetter("Next.js SEO Best Practices", Advanced, 1, 'y', 'Y');
  }
  lemma NoAdvanced19() ensures !Contains(Lower("Next.js Roadmap"), Lower(Advanced)) {
    MissingLetter("Next.js Roadmap", Advanced, 1, 'y', 'Y');
  }
  lemma NoAdvanced20() ensures !Contains(Lower("Next.js Interview Questions"), Lower(Advanced)) {
    MissingLetter("Next.js Interview Questions", Advanced, 1, 'y', 'Y');
  }

  lemma NoAdvanced21() ensures !Contains(Lower("TypeScript Basics"), Lower(Advanced)) {
    MissingLetter("TypeScript Basics", Advanced, 12, 'd', 'D');
  }
  lemma NoAdvanced22() ensures !Contains(Lower("TypeScript Interfaces"), Lower(Advanced)) {
    MissingLetter("TypeScript Interfaces", Advanced, 12, 'd', 'D');
  }
  lemma NoAdvanced23() ensures !Contains(Lower("TypeScript Generics"), Lower(Advanced)) {
    MissingLetter("TypeScript Generics", Advanced, 12, 'd', 'D');
  }
  lemma NoAdvanced24() ensures !Contains(Lower("TypeScript Utility Types"), Lower(Advanced)) {
    MissingLetter("TypeScript Utility Types", Advanced, 12, 'd', 'D');
  }
  lemma NoAdvanced25() ensures !Contains(Lower("TypeScript vs JavaScript"), Lower(Advanced)) {
    MissingLetter("TypeScript vs JavaScript", Advanced, 12, 'd', 'D');
  }
  lemma NoAdvanced26() ensures !Contains(Lower("TypeScript Tutorial"), Lower(Advanced)) {
    MissingLetter("TypeScript Tutorial", Advanced, 12, 'd', 'D');
  }
  lemma NoAdvanced27() ensures !Contains(Lower("TypeScript Best Practices"), Lower(Advanced)) {
    MissingLetter("TypeScript Best Practices", Advanced, 12, 'd', 'D');
  }
  lemma NoAdvanced28() ensures !Contains(Lower("TypeScript Roadmap"), Lower(Advanced)) {
    MissingLetter("TypeScript Roadmap", Advanced, 15, 'n', 'N');
  }
  lemma NoAdvanced29() ensures !Contains(Lower("TypeScript Interview Questions"), Lower(Advanced)) {
    MissingLetter("TypeScript Interview Questions", Advanced, 12, 'd', 'D');
  }
  lemma NoAdvanced30() ensures !Contains(Lower("TypeScript Performance Optimization"), Lower(Advanced)) {
    MissingLetter("TypeScript Performance Optimization", Advanced, 12, 'd', 'D');
  }

  lemma NoAdvanced31() ensures !Contains(Lower("Node.js Streams"), Lower(Advanced)) {
    MissingLetter("Node.js Streams", Advanced, 1, 'y', 'Y');
  }
  lemma NoAdvanced32() ensures !Contains(Lower("Node.js Event Loop"), Lower(Advanced)) {
    MissingLetter("Node.js Event Loop", Advanced, 1, 'y', 'Y');
  }
  lemma NoAdvanced33() ensures !Contains(Lower("Node.js File System"), Lower(Advanced)) {
    MissingLetter("Node.js File System", Advanced, 13, 'v', 'V');
  }
  lemma NoAdvanced34() ensures !Contains(Lower("Node.js Authentication"), Lower(Advanced)) {
    MissingLetter("Node.js Authentication", Advanced, 1, 'y', 'Y');
  }
  lemma NoAdvanced35() ensures !Contains(Lower("Node.js WebSockets"), Lower(Advanced)) {
    MissingLetter("Node.js WebSockets", Advanced, 1, 'y', 'Y');
  }
  lemma NoAdvanced36() ensures !Contains(Lower("Node.js Tutorial"), Lower(Advanced)) {
    MissingLetter("Node.js Tutorial", Advanced, 1, 'y', 'Y');
  }
  lemma NoAdvanced37() ensures !Contains(Lower("Node.js Best Practices"), Lower(Advanced)) {
    MissingLetter("Node.js Best Practices", Advanced, 1, 'y', 'Y');
  }
  lemma NoAdvanced38() ensures !Contains(Lower("Node.js vs Deno"), Lower(Advanced)) {
    MissingLetter("Node.js vs Deno", Advanced, 1, 'y', 'Y');
  }
  lemma NoAdvanced39() ensures !Contains(Lower("Node.js Performance Optimization"), Lower(Advanced)) {
    MissingLetter("Node.js Performance Optimization", Advanced, 1, 'y', 'Y');
  }
  lemma NoAdvanced40() ensures !Contains(Lower("Node.js Interview Questions"), Lower(Advanced)) {
    MissingLetter("Node.js Interview Questions", Advanced, 1, 'y', 'Y');
  }

  lemma NoAdvanced41() ensures !Contains(Lower("Redux Toolkit"), Lower(Advanced)) {
    MissingLetter("Redux Toolkit", Advanced, 1, 'y', 'Y');
  }
  lemma NoAdvanced42() ensures !Contains(Lower("Redux Middleware"), Lower(Advanced)) {
    MissingLetter("Redux Middleware", Advanced, 1, 'y', 'Y');
  }
  lemma NoAdvanced43() ensures !Contains(Lower("Redux Thunk"), Lower(Advanced)) {
    MissingLetter("Redux Thunk", Advanced, 1, 'y', 'Y');
  }
  lemma NoAdvanced44() ensures !Contains(Lower("Redux Saga"), Lower(Advanced)) {
    MissingLetter("Redux Saga", Advanced, 1, 'y', 'Y');
  }
  lemma NoAdvanced45() ensures !Contains(Lower("Redux vs Context API"), Lower(Advanced)) {
    MissingLetter("Redux vs Context API", Advanced, 1, 'y', 'Y');
  }
  lemma NoAdvanced46() ensures !Contains(Lower("Redux Tutorial"), Lower(Advanced)) {
    MissingLetter("Redux Tutorial", Advanced, 1, 'y', 'Y');
  }
  lemma NoAdvanced47() ensures !Contains(Lower("Redux Best Practices"), Lower(Advanced)) {
    MissingLetter("Redux Best Practices", Advanced, 1, 'y', 'Y');
  }
  lemma NoAdvanced48() ensures !Contains(Lower("Redux Performance Optimization"), Lower(Advanced)) {
    MissingLetter("Redux Performance Optimization", Advanced, 1, 'y', 'Y');
  }
  lemma NoAdvanced49() ensures !Contains(Lower("Redux Interview Questions"), Lower(Advanced)) {
    MissingLetter("Redux Interview Questions", Advanced, 1, 'y', 'Y');
  }
  lemma NoAdvanced50() ensures !Contains(Lower("Redux Roadmap"), Lower(Advanced)) {
    MissingLetter("Redux Roadmap", Advanced, 1, 'y', 'Y');
  }

  lemma NoAdvanced51() ensures !Contains(Lower("Tailwind CSS Grid"), Lower(Advanced)) {
    MissingLetter("Tailwind CSS Grid", Advanced, 1, 'y', 'Y');
  }
  lemma NoAdvanced52() ensures !Contains(Lower("Tailwind CSS Flexbox"), Lower(Advanced)) {
    MissingLetter("Tailwind CSS Flexbox", Advanced, 1, 'y', 'Y');
  }
  lemma NoAdvanced53() ensures !Contains(Lower("Tailwind CSS Animations"), Lower(Advanced)) {
    MissingLetter("Tailwind CSS Animations", Advanced, 1, 'y', 'Y');
  }
  lemma NoAdvanced54() ensures !Contains(Lower("Tailwind CSS Responsive Design"), Lower(Advanced)) {
    MissingLetter("Tailwind CSS Responsive Design", Advanced, 1, 'y', 'Y');
  }
  lemma NoAdvanced55() ensures !Contains(Lower("Tailwind CSS Dark Mode"), Lower(Advanced)) {
    MissingLetter("Tailwind CSS Dark Mode", Advanced, 1, 'y', 'Y');
  }
  lemma NoAdvanced56() ensures !Contains(Lower("Tailwind CSS Tutorial"), Lower(Advanced)) {
    MissingLetter("Tailwind CSS Tutorial", Advanced, 1, 'y', 'Y');
  }
  lemma NoAdvanced57() ensures !Contains(Lower("Tailwind CSS Best Practices"), Lower(Advanced)) {
    MissingLetter("Tailwind CSS Best Practices", Advanced, 1, 'y', 'Y');
  }
  lemma NoAdvanced58() ensures !Contains(Lower("Tailwind CSS vs Bootstrap"), Lower(Advanced)) {
    MissingLetter("Tailwind CSS vs Bootstrap", Advanced, 1, 'y', 'Y');
  }
  lemma NoAdvanced59() ensures !Contains(Lower("Tailwind CSS Performance Optimization"), Lower(Advanced)) {
    MissingLetter("Tailwind CSS Performance Optimization", Advanced, 1, 'y', 'Y');
  }
  lemma NoAdvanced60() ensures !Contains(Lower("Tailwind CSS Interview Questions"), Lower(Advanced)) {
    MissingLetter("Tailwind CSS Interview Questions", Advanced, 1, 'y', 'Y');
  }

  /** No item of `ReactTopics` matches "Typescript Advanced". */
  lemma ReactNotAdvanced()
    ensures Filter(ReactTopics, Advanced) == []
  {
    NoAdvanced1();
    NoAdvanced2();
    NoAdvanced3();
    NoAdvanced4();
    NoAdvanced5();
    NoAdvanced6();
    NoAdvanced7();
    NoAdvanced8();
    NoAdvanced9();
    NoAdvanced10();
    FilterFindsNothing(ReactTopics, Advanced);
  }

  /** No item of `NextJsTopics` matches "Typescript Advanced". */
  lemma NextJsNotAdvanced()
    ensures Filter(NextJsTopics, Advanced) == []
  {
    NoAdvanced11();
    NoAdvanced12();
    NoAdvanced13();
    NoAdvanced14();
    NoAdvanced15();
    NoAdvanced16();
    NoAdvanced17();
    NoAdvanced18();
    NoAdvanced19();
    NoAdvanced20();
    FilterFindsNothing(NextJsTopics, Advanced);
  }

  /** No item of `TypeScriptTopics` matches "Typescript Advanced". */
  lemma TypeScriptNotAdvanced()
    ensures Filter(TypeScriptTopics, Advanced) == []
  {
    NoAdvanced21();
    NoAdvanced22();
    NoAdvanced23();
    NoAdvanced24();
    NoAdvanced25();
    NoAdvanced26();
    NoAdvanced27();
    NoAdvanced28();
    NoAdvanced29();
    NoAdvanced30();
    FilterFindsNothing(TypeScriptTopics, Advanced);
  }

  /** No item of `NodeJsTopics` matches "Typescript Advanced". */
  lemma NodeJsNotAdvanced()
    ensures Filter(NodeJsTopics, Advanced) == []
  {
    NoAdvanced31();
    NoAdvanced32();
    NoAdvanced33();
    NoAdvanced34();
    NoAdvanced35();
    NoAdvanced36();
    NoAdvanced37();
    NoAdvanced38();
    NoAdvanced39();
    NoAdvanced40();
    FilterFindsNothing(NodeJsTopics, Advanced);
  }

  /** No item of `ReduxTopics` matches "Typescript Advanced". */
  lemma ReduxNotAdvanced()
    ensures Filter(ReduxTopics, Advanced) == []
  {
    NoAdvanced41();
    NoAdvanced42();
    NoAdvanced43();
    NoAdvanced44();
    NoAdvanced45();
    NoAdvanced46();
    NoAdvanced47();
    NoAdvanced48();
    NoAdvanced49();
    NoAdvanced50();
    FilterFindsNothing(ReduxTopics, Advanced);
  }

  /** No item of `TailwindTopics` matches "Typescript Advanced". */
  lemma TailwindNotAdvanced()
    ensures Filter(TailwindTopics, Advanced) == []
  {
    NoAdvanced51();
    NoAdvanced52();
    NoAdvanced53();
    NoAdvanced54();
    NoAdvanced55();
    NoAdvanced56();
    NoAdvanced57();
    NoAdvanced58();
    NoAdvanced59();
    NoAdvanced60();
    FilterFindsNothing(TailwindTopics, Advanced);
  }

  /** The query "Typescript Advanced" matches no item of the corpus. */
  lemma AdvancedQueryFindsNothing()
    ensures Filter(Items, Advanced) == []
  {
    ReactNotAdvanced();
    NextJsNotAdvanced();
    TypeScriptNotAdvanced();
    NodeJsNotAdvanced();
    ReduxNotAdvanced();
    TailwindNotAdvanced();
    var a := ReactTopics + NextJsTopics;
    var b := a + TypeScriptTopics;
    var c := b + NodeJsTopics;
    var d := c + ReduxTopics;
    FilterAppend(ReactTopics, NextJsTopics, Advanced);
    FilterAppend(a, TypeScriptTopics, Advanced);
    FilterAppend(b, NodeJsTopics, Advanced);
    FilterAppend(c, ReduxTopics, Advanced);
    FilterAppend(d, TailwindTopics, Advanced);
  }
}
