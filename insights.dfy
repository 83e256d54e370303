/**
 * The insight files the agent puts at the top of its prompt
 * (core/insight_loader.py). Insights are kept as a dict from file stem to
 * content in insertion order; the prompt shows `ultimate_goals` first,
 * then `simple_goals`, then every other insight in the order it was loaded.
 *
 * The directory listing and the file reads are inputs: whether the
 * directory exists, and for each file its stem and either its content or
 * the failure of the read.
 */
module Insights {
  import opened Common

  /** The loader's dict: `(stem, content)` items in insertion order. */
  type Contents = seq<(string, string)>

  /** Sixty `=` signs. */
  const Rule: string := "============================================================"
  const Banner: string := "Agent Insights:\n" + Rule + "\n\n"
  const Footer: string := Rule + "\n"
  const UltimateGoals: string := "ultimate_goals"
  const SimpleGoals: string := "simple_goals"
  const PriorityOrder: seq<string> := [UltimateGoals, SimpleGoals]

  function Names(d: Contents): (r: seq<string>)
    ensures |r| == |d| && forall i :: 0 <= i < |d| ==> r[i] == d[i].0
  {
    seq(|d|, i requires 0 <= i < |d| => d[i].0)
  }

  /** What a dict guarantees: each name once. */
  ghost predicate UniqueNames(d: Contents)
  {
    Distinct(Names(d))
  }

  function Block(content: string): string
  {
    content + "\n\n"
  }

  /** The names of `keys` present in `d`, in the order of `keys`. */
  function PresentAlong(d: Contents, keys: seq<string>): (r: seq<string>)
    ensures forall k :: k in r <==> k in keys && k in Names(d)
    decreases |keys|
  {
    if keys == [] then []
    else
      var k := keys[|keys| - 1];
      var rest := PresentAlong(d, keys[..|keys| - 1]);
      assert forall x :: x in keys <==> x in keys[..|keys| - 1] || x == k by {
        assert keys == keys[..|keys| - 1] + [k];
      }
      if k in Names(d) then rest + [k] else rest
  }

  /** The items whose names are not among the priority names, in order. */
  function Others(items: Contents): (r: Contents)
    ensures forall p :: p in r <==> p in items && p.0 !in PriorityOrder
    decreases |items|
  {
    if items == [] then []
    else
      var p := items[|items| - 1];
      var rest := Others(items[..|items| - 1]);
      assert forall x :: x in items <==> x in items[..|items| - 1] || x == p by {
        assert items == items[..|items| - 1] + [p];
      }
      if p.0 !in PriorityOrder then rest + [p] else rest
  }

  /** The order in which `format_for_prompt` shows the insights. */
  function VisitOrder(d: Contents): seq<string>
  {
    PresentAlong(d, PriorityOrder) + Names(Others(d))
  }

  /** The blocks of the named insights, one after the other. */
  function BlocksOf(d: Contents, names: seq<string>): string
    decreases |names|
  {
    if names == [] then ""
    else BlocksOf(d, names[..|names| - 1]) + Block(MemberOr(d, names[|names| - 1], ""))
  }

  /** `format_for_prompt`: nothing without insights, otherwise the banner, the blocks in visiting order and the rule. */
  function Formatted(d: Contents): string
  {
    if d == [] then "" else Banner + BlocksOf(d, VisitOrder(d)) + Footer
  }

  /** One file the glob produced: its stem and its content, or `None` when reading it raised. */
  datatype InsightFile = InsightFile(stem: string, content: Option<string>)

  /** The dict after reading `files` in turn; a file that cannot be read is skipped. */
  function LoadFiles(d: Contents, files: seq<InsightFile>): Contents
    decreases |files|
  {
    if files == [] then d
    else
      var f := files[|files| - 1];
      var before := LoadFiles(d, files[..|files| - 1]);
      if f.content.Some? then SetKey(before, f.stem, f.content.value) else before
  }

  // ---------------------------------------------------------------------------
  // The loader
  // ---------------------------------------------------------------------------

  class InsightLoader {
    var insights: Contents

    ghost predicate Valid()
      reads this
    {
      UniqueNames(insights)
    }

    constructor ()
      ensures Valid() && insights == []
    {
      insights := [];
    }

    /**
     * `load_insights`: without the directory nothing changes and `{}` is
     * returned; otherwise the Markdown files are read, then the text files,
     * and the result replaces the insights.
     */
    method LoadInsights(dirExists: bool, mdFiles: seq<InsightFile>, txtFiles: seq<InsightFile>)
      returns (loaded: Contents)
      requires Valid()
      modifies this
      ensures Valid()
      ensures !dirExists ==> loaded == [] && insights == old(insights)
      ensures dirExists ==> loaded == LoadFiles(LoadFiles([], mdFiles), txtFiles) && insights == loaded
    {
      if !dirExists {
        return [];
      }
      loaded := [];
      for i := 0 to |mdFiles|
        invariant loaded == LoadFiles([], mdFiles[..i]) && UniqueNames(loaded)
      {
        assert mdFiles[..i + 1][..i] == mdFiles[..i];
        if mdFiles[i].content.Some? {
          SetKeyKeepsNamesUnique(loaded, mdFiles[i].stem, mdFiles[i].content.value);
          loaded := SetKey(loaded, mdFiles[i].stem, mdFiles[i].content.value);
        }
      }
      assert mdFiles[..|mdFiles|] == mdFiles;
      ghost var afterMd := loaded;
      for j := 0 to |txtFiles|
        invariant loaded == LoadFiles(afterMd, txtFiles[..j]) && UniqueNames(loaded)
      {
        assert txtFiles[..j + 1][..j] == txtFiles[..j];
        if txtFiles[j].content.Some? {
          SetKeyKeepsNamesUnique(loaded, txtFiles[j].stem, txtFiles[j].content.value);
          loaded := SetKey(loaded, txtFiles[j].stem, txtFiles[j].content.value);
        }
      }
      assert txtFiles[..|txtFiles|] == txtFiles;
      insights := loaded;
    }

    /** `format_for_prompt`, accumulating the text block by block. */
    method FormatForPrompt() returns (text: string)
      requires Valid()
      ensures text == Formatted(insights)
    {
      if insights == [] {
        return "";
      }
      text := "Agent Insights:\n";
      text := text + Rule + "\n\n";
      var priority := PriorityBlocks();
      text := text + priority;
      var others := OtherBlocks();
      text := text + others;
      text := text + Rule + "\n";
      BlocksOfAppend(insights, PresentAlong(insights, PriorityOrder), Names(Others(insights)));
    }

    /** The first loop of `format_for_prompt`: the priority insights that are loaded. */
    method PriorityBlocks() returns (text: string)
      requires Valid()
      ensures text == BlocksOf(insights, PresentAlong(insights, PriorityOrder))
    {
      text := "";
      for i := 0 to |PriorityOrder|
        invariant text == BlocksOf(insights, PresentAlong(insights, PriorityOrder[..i]))
      {
        var key := PriorityOrder[i];
        assert PriorityOrder[..i + 1][..i] == PriorityOrder[..i];
        var found := Member(insights, key);
        MemberFound(insights, key);
        if found.Some? {
          text := text + Block(found.value);
          assert key in Names(insights) by {
            var w :| 0 <= w < |insights| && insights[w].0 == key;
          }
        } else {
          assert key !in Names(insights);
        }
      }
      assert PriorityOrder[..|PriorityOrder|] == PriorityOrder;
    }

    /** The second loop of `format_for_prompt`: every other insight, in insertion order. */
    method OtherBlocks() returns (text: string)
      requires Valid()
      ensures text == BlocksOf(insights, Names(Others(insights)))
    {
      text := "";
      for j := 0 to |insights|
        invariant text == BlocksOf(insights, Names(Others(insights[..j])))
      {
        OthersStep(insights, j);
        if insights[j].0 !in PriorityOrder {
          text := text + Block(insights[j].1);
        }
      }
      assert insights[..|insights|] == insights;
    }

    /** `get_insight`: the content, or `""` for an unknown name. */
    function GetInsight(name: string): (r: string)
      reads this
      ensures Member(insights, name).Some? ==> r == Member(insights, name).value
      ensures Member(insights, name).None? ==> r == ""
    {
      MemberOr(insights, name, "")
    }

    /** `list_insights`: the loaded names in insertion order. */
    function ListInsights(): (r: seq<string>)
      reads this
      ensures r == Names(insights)
    {
      Names(insights)
    }
  }

  // ---------------------------------------------------------------------------
  // Properties
  // ---------------------------------------------------------------------------

  /** Assigning a key of a dict with unique names keeps the names unique. */
  lemma {:induction false} SetKeyKeepsNamesUnique(d: Contents, key: string, value: string)
    requires UniqueNames(d)
    ensures UniqueNames(SetKey(d, key, value))
    decreases |d|
  {
    var r := SetKey(d, key, value);
    if d != [] && d[0].0 != key {
      assert forall i :: 1 <= i < |d| ==> d[i].0 == Names(d[1..])[i - 1];
      SetKeyKeepsNamesUnique(d[1..], key, value);
      var tail := SetKey(d[1..], key, value);
      assert r == [d[0]] + tail;
      assert d[0].0 !in Names(tail) by {
        assert forall w :: 0 <= w < |d[1..]| ==> d[1..][w].0 == Names(d)[w + 1] != Names(d)[0];
        MemberFound(d[1..], d[0].0);
        assert Member(d[1..], d[0].0).None?;
        MemberFound(tail, d[0].0);
        assert forall i :: 0 <= i < |tail| ==> tail[i].0 != d[0].0;
      }
      forall i, j | 0 <= i < j < |r|
        ensures Names(r)[i] != Names(r)[j]
      {
        if i == 0 {
          assert Names(r)[j] == Names(tail)[j - 1];
        } else {
          assert Names(r)[i] == Names(tail)[i - 1] && Names(r)[j] == Names(tail)[j - 1];
        }
      }
    } else if d != [] {
      assert forall i :: 0 <= i < |d| ==> Names(r)[i] == Names(d)[i];
    }
  }

  /** In a dict with unique names, looking an item's name up finds that item. */
  lemma MemberAt(d: Contents, j: int)
    requires UniqueNames(d) && 0 <= j < |d|
    ensures Member(d, d[j].0) == Some(d[j].1)
  {
    MemberFound(d, d[j].0);
    var w :| 0 <= w < |d| && d[w] == (d[j].0, Member(d, d[j].0).value);
    assert Names(d)[w] == Names(d)[j];
  }

  /** One more item either adds its own block to the other insights' blocks, or nothing for a priority name. */
  lemma OthersStep(d: Contents, j: int)
    requires UniqueNames(d) && 0 <= j < |d|
    ensures BlocksOf(d, Names(Others(d[..j + 1])))
            == BlocksOf(d, Names(Others(d[..j]))) + (if d[j].0 !in PriorityOrder then Block(d[j].1) else "")
  {
    var seen := Others(d[..j]);
    var k := d[j].0;
    if k !in PriorityOrder {
      calc {
        BlocksOf(d, Names(Others(d[..j + 1])));
        == { OthersPrefix(d, j); }
        BlocksOf(d, Names(seen + [d[j]]));
        == { NamesSnoc(seen, d[j]); }
        BlocksOf(d, Names(seen) + [k]);
        == { BlocksOfSnoc(d, Names(seen), k); }
        BlocksOf(d, Names(seen)) + Block(MemberOr(d, k, ""));
        == { MemberAt(d, j); }
        BlocksOf(d, Names(seen)) + Block(d[j].1);
      }
    } else {
      calc {
        BlocksOf(d, Names(Others(d[..j + 1])));
        == { OthersPrefix(d, j); assert seen + [] == seen; }
        BlocksOf(d, Names(seen));
        == 
        BlocksOf(d, Names(seen)) + "";
      }
    }
  }

  lemma NamesSnoc(items: Contents, p: (string, string))
    ensures Names(items + [p]) == Names(items) + [p.0]
  {
  }

  lemma OthersPrefix(d: Contents, j: int)
    requires 0 <= j < |d|
    ensures Others(d[..j + 1]) == Others(d[..j]) + (if d[j].0 !in PriorityOrder then [d[j]] else [])
  {
    assert d[..j + 1][..j] == d[..j];
  }

  lemma BlocksOfSnoc(d: Contents, names: seq<string>, k: string)
    ensures BlocksOf(d, names + [k]) == BlocksOf(d, names) + Block(MemberOr(d, k, ""))
  {
    assert (names + [k])[..|names|] == names;
  }

  /** Splitting the names splits the blocks. */
  lemma {:induction false} BlocksOfAppend(d: Contents, a: seq<string>, b: seq<string>)
    ensures BlocksOf(d, a + b) == BlocksOf(d, a) + BlocksOf(d, b)
    decreases |b|
  {
    if b == [] {
      assert a + b == a;
    } else {
      var init := b[..|b| - 1];
      BlocksOfAppend(d, a, init);
      assert (a + b)[..|a + b| - 1] == a + init;
    }
  }

  /** Without insights the section is empty; with any, it opens with the banner and ends with the closing rule. */
  lemma FormattedFrame(d: Contents)
    ensures d == [] <==> Formatted(d) == ""
    ensures d != [] ==> StartsWith(Formatted(d), Banner)
    ensures d != [] ==> |Formatted(d)| >= |Footer| && Formatted(d)[|Formatted(d)| - |Footer|..] == Footer
  {
    if d != [] {
      assert |Banner| > 0;
      Framed(Banner, BlocksOf(d, VisitOrder(d)), Footer);
    }
  }

  lemma Framed(a: string, b: string, c: string)
    ensures StartsWith(a + b + c, a)
    ensures |a + b + c| >= |c| && (a + b + c)[|a + b + c| - |c|..] == c
  {
    assert (a + b + c)[..|a|] == a;
    assert (a + b + c)[|a + b + c| - |c|..] == c;
  }

  /** The visiting order lists every loaded insight exactly once. */
  lemma EachInsightOnce(d: Contents)
    requires UniqueNames(d)
    ensures multiset(VisitOrder(d)) == multiset(Names(d))
  {
    OthersKeepOrder(d);
    PriorityThenOthers(d);
  }

  /** The names of the other insights are the names of `d` outside the priority list. */
  lemma {:induction false} OthersKeepOrder(items: Contents)
    ensures Names(Others(items)) == Outside(Names(items))
    decreases |items|
  {
    if items != [] {
      var init := items[..|items| - 1];
      OthersKeepOrder(init);
      assert Names(items) == Names(init) + [items[|items| - 1].0];
      OutsideAppend(Names(init), items[|items| - 1].0);
    }
  }

  /** The names not in the priority list, in order. */
  function Outside(names: seq<string>): (r: seq<string>)
    decreases |names|
  {
    if names == [] then []
    else
      var rest := Outside(names[..|names| - 1]);
      if names[|names| - 1] !in PriorityOrder then rest + [names[|names| - 1]] else rest
  }

  lemma OutsideAppend(names: seq<string>, k: string)
    ensures Outside(names + [k]) == Outside(names) + (if k !in PriorityOrder then [k] else [])
  {
    assert (names + [k])[..|names|] == names;
  }

  /** A multiset view of `Outside`: every name except the priority names. */
  lemma {:induction false} OutsideCount(names: seq<string>)
    ensures multiset(Outside(names)) + multiset(Keep(names)) == multiset(names)
    decreases |names|
  {
    if names != [] {
      var init := names[..|names| - 1];
      OutsideCount(init);
      assert names == init + [names[|names| - 1]];
    }
  }

  /** The priority names among `names`, in order. */
  function Keep(names: seq<string>): seq<string>
    decreases |names|
  {
    if names == [] then []
    else
      var rest := Keep(names[..|names| - 1]);
      if names[|names| - 1] in PriorityOrder then rest + [names[|names| - 1]] else rest
  }

  /** Each priority name occurs in `Keep(names)` as often as in `names`. */
  lemma {:induction false} KeepCount(names: seq<string>, k: string)
    ensures k in PriorityOrder ==> multiset(Keep(names))[k] == multiset(names)[k]
    ensures k !in PriorityOrder ==> multiset(Keep(names))[k] == 0
    decreases |names|
  {
    if names != [] {
      var init := names[..|names| - 1];
      KeepCount(init, k);
      assert names == init + [names[|names| - 1]];
    }
  }

  /** The priority part and the other names together are the names of `d`, each once. */
  lemma PriorityThenOthers(d: Contents)
    requires UniqueNames(d)
    ensures multiset(PresentAlong(d, PriorityOrder)) + multiset(Outside(Names(d))) == multiset(Names(d))
  {
    var names := Names(d);
    OutsideCount(names);
    var present := PresentAlong(d, PriorityOrder);
    PresentPriority(d);
    forall k
      ensures multiset(present)[k] == multiset(Keep(names))[k]
    {
      KeepCount(names, k);
      DistinctCount(names, k);
    }
    assert multiset(present) == multiset(Keep(names));
  }

  /** In a sequence without repeats, a name occurs once if present and never otherwise. */
  lemma {:induction false} DistinctCount(s: seq<string>, k: string)
    requires Distinct(s)
    ensures multiset(s)[k] == (if k in s then 1 else 0)
    decreases |s|
  {
    if s != [] {
      var tail := s[1..];
      assert forall i :: 0 <= i < |tail| ==> tail[i] == s[i + 1];
      DistinctCount(tail, k);
      assert s == [s[0]] + tail;
      assert s[0] !in tail;
    }
  }

  /** The priority names present in `d`: `ultimate_goals`, then `simple_goals`. */
  lemma PresentPriority(d: Contents)
    ensures PresentAlong(d, PriorityOrder) == (if UltimateGoals in Names(d) then [UltimateGoals] else [])
                                            + (if SimpleGoals in Names(d) then [SimpleGoals] else [])
  {
    var first := [UltimateGoals];
    assert first[..0] == [];
    assert PresentAlong(d, first[..0]) == [];
    var p1 := PresentAlong(d, first);
    assert p1 == (if UltimateGoals in Names(d) then [UltimateGoals] else []);
    assert PriorityOrder[..1] == first;
    assert PresentAlong(d, PriorityOrder) == (if SimpleGoals in Names(d) then p1 + [SimpleGoals] else p1);
  }

  /** `ultimate_goals` is shown first when loaded, and `simple_goals` right after it (or first without it). */
  lemma PriorityFirst(d: Contents)
    ensures UltimateGoals in Names(d) ==> VisitOrder(d)[0] == UltimateGoals
    ensures SimpleGoals in Names(d) ==>
              VisitOrder(d)[if UltimateGoals in Names(d) then 1 else 0] == SimpleGoals
  {
    PresentPriority(d);
  }

  /**
   * A text file overrides the Markdown file of the same stem: when the last
   * readable file with a given stem is `(stem, c)`, the loaded content of
   * `stem` is `c`, whatever was read before.
   */
  lemma {:induction false} LastReadWins(d: Contents, files: seq<InsightFile>, i: int, stem: string, c: string)
    requires 0 <= i < |files| && files[i] == InsightFile(stem, Some(c))
    requires forall j :: i < j < |files| ==> files[j].stem != stem || files[j].content.None?
    ensures Member(LoadFiles(d, files), stem) == Some(c)
    decreases |files|
  {
    if i < |files| - 1 {
      LastReadWins(d, files[..|files| - 1], i, stem, c);
    }
  }

  /** Files that do not touch a stem leave its content as it was. */
  lemma {:induction false} LoadUntouched(d: Contents, files: seq<InsightFile>, stem: string)
    requires forall j :: 0 <= j < |files| ==> files[j].stem != stem || files[j].content.None?
    ensures Member(LoadFiles(d, files), stem) == Member(d, stem)
    decreases |files|
  {
    if files != [] {
      LoadUntouched(d, files[..|files| - 1], stem);
    }
  }

  /** For the two globs: a readable `.txt` file replaces the `.md` file of the same stem, which is kept otherwise. */
  lemma TextFileOverridesMarkdown(md: seq<InsightFile>, txt: seq<InsightFile>, stem: string)
    ensures (forall j :: 0 <= j < |txt| ==> txt[j].stem != stem || txt[j].content.None?) ==>
              Member(LoadFiles(LoadFiles([], md), txt), stem) == Member(LoadFiles([], md), stem)
    ensures forall i, c :: 0 <= i < |txt| && txt[i] == InsightFile(stem, Some(c))
                           && (forall j :: i < j < |txt| ==> txt[j].stem != stem || txt[j].content.None?) ==>
              Member(LoadFiles(LoadFiles([], md), txt), stem) == Some(c)
  {
    if forall j :: 0 <= j < |txt| ==> txt[j].stem != stem || txt[j].content.None? {
      LoadUntouched(LoadFiles([], md), txt, stem);
    }
    forall i, c | 0 <= i < |txt| && txt[i] == InsightFile(stem, Some(c))
                  && (forall j :: i < j < |txt| ==> txt[j].stem != stem || txt[j].content.None?)
      ensures Member(LoadFiles(LoadFiles([], md), txt), stem) == Some(c)
    {
      LastReadWins(LoadFiles([], md), txt, i, stem, c);
    }
  }
}
