/**
 * The mailbox of results from tools that ran after the agent moved on
 * (core/pending_results.py).
 *
 * Each `PendingToolResult` carries an `added` flag that the prompt builder
 * sets once it has copied the result into a prompt. The manager's dict keeps
 * insertion order (a Python dict does), which fixes the order in which
 * results reach the prompt, so the model keeps that order beside the map.
 */
module PendingResults {
  import opened Common

  /** The fields of one `PendingToolResult` at one moment (its `to_dict`). */
  datatype ResultView = ResultView(
    toolId: string,
    toolName: string,
    args: Args,
    result: string,
    timestamp: int,
    added: bool)

  /** The manager's dict: keys in insertion order, and the entry of each key. */
  datatype Mailbox = Mailbox(order: seq<string>, entries: map<string, ResultView>)

  /** What a Python dict guarantees: each key once in the order, and only keys of the map. */
  ghost predicate WellFormed(b: Mailbox)
  {
    Distinct(b.order) && (forall k :: k in b.order <==> k in b.entries)
  }

  /** Each entry is stored under its own `tool_id`, as `add_result` stores it. */
  ghost predicate KeyedById(b: Mailbox)
  {
    forall k :: k in b.entries ==> b.entries[k].toolId == k
  }

  /** Default age, in seconds, after which an added result may be dropped. */
  const DefaultMaxAge: int := 3600

  /**
   * `add_result`: a new entry, not yet added, stored under `toolId`. A key
   * already present keeps its place in the order and its entry is replaced.
   */
  function Add(b: Mailbox, toolId: string, toolName: string, args: Args, result: string, now: int): (r: Mailbox)
    requires WellFormed(b)
    ensures WellFormed(r)
    ensures r.entries == b.entries[toolId := ResultView(toolId, toolName, args, result, now, false)]
    ensures toolId in b.entries ==> r.order == b.order
    ensures toolId !in b.entries ==> r.order == b.order + [toolId]
  {
    var order := if toolId in b.entries then b.order else b.order + [toolId];
    Mailbox(order, b.entries[toolId := ResultView(toolId, toolName, args, result, now, false)])
  }

  /** The entries of `order` whose flag is clear, in that order. */
  function UnaddedAlong(order: seq<string>, entries: map<string, ResultView>): (r: seq<ResultView>)
    requires forall k :: k in order ==> k in entries
    ensures forall v :: v in r ==> !v.added && exists k :: k in order && entries[k] == v
    ensures forall k :: k in order && !entries[k].added ==> entries[k] in r
    ensures |r| <= |order|
  {
    if order == [] then []
    else
      var rest := UnaddedAlong(order[1..], entries);
      if entries[order[0]].added then rest else [entries[order[0]]] + rest
  }

  /** `get_unadded_results`: exactly the entries whose flag is clear (`UnaddedAlong` takes them along the dict order). */
  function Unadded(b: Mailbox): (r: seq<ResultView>)
    requires WellFormed(b)
    ensures forall v :: v in r ==> !v.added && exists k :: k in b.entries && b.entries[k] == v
    ensures forall k :: k in b.entries && !b.entries[k].added ==> b.entries[k] in r
  {
    UnaddedAlong(b.order, b.entries)
  }

  /** `mark_as_added`: set the flag of `toolId` if it is stored; nothing else changes. */
  function MarkAdded(b: Mailbox, toolId: string): (r: Mailbox)
    requires WellFormed(b)
    ensures WellFormed(r) && r.order == b.order && r.entries.Keys == b.entries.Keys
    ensures toolId in b.entries ==> r.entries == b.entries[toolId := b.entries[toolId].(added := true)]
    ensures toolId !in b.entries ==> r == b
  {
    if toolId in b.entries then Mailbox(b.order, b.entries[toolId := b.entries[toolId].(added := true)])
    else b
  }

  /** `mark_all_as_added`: `MarkAdded` for each listed id in turn. */
  function MarkAll(b: Mailbox, toolIds: seq<string>): (r: Mailbox)
    requires WellFormed(b)
    ensures WellFormed(r) && r.order == b.order && r.entries.Keys == b.entries.Keys
    decreases |toolIds|
  {
    if toolIds == [] then b
    else MarkAdded(MarkAll(b, toolIds[..|toolIds| - 1]), toolIds[|toolIds| - 1])
  }

  /** An entry `cleanup_old_results` drops: already added and older than `maxAge`. */
  predicate Stale(v: ResultView, now: int, maxAge: int)
  {
    v.added && now - v.timestamp > maxAge
  }

  /** The elements of `s` that are not in `gone`, in order. */
  function Exclude(s: seq<string>, gone: set<string>): (r: seq<string>)
    ensures forall x :: x in r <==> x in s && x !in gone
    ensures Distinct(s) ==> Distinct(r)
  {
    if s == [] then []
    else
      var rest := Exclude(s[1..], gone);
      if s[0] in gone then rest
      else
        assert forall x :: x in rest ==> x in s[1..];
        [s[0]] + rest
  }

  function StaleKeys(b: Mailbox, now: int, maxAge: int): set<string>
  {
    set k | k in b.entries && Stale(b.entries[k], now, maxAge)
  }

  /** `cleanup_old_results`: drops the stale entries, keeps the rest and their order. */
  function Cleanup(b: Mailbox, now: int, maxAge: int): (r: Mailbox)
    requires WellFormed(b)
    ensures WellFormed(r)
    ensures forall k :: k in b.entries ==> (k in r.entries <==> !Stale(b.entries[k], now, maxAge))
    ensures forall k :: k in r.entries ==> k in b.entries && r.entries[k] == b.entries[k]
  {
    var gone := StaleKeys(b, now, maxAge);
    Mailbox(Exclude(b.order, gone), map k | k in b.entries && k !in gone :: b.entries[k])
  }

  /** `get_all_results`: every entry, in dict order. */
  function AllAlong(order: seq<string>, entries: map<string, ResultView>): (r: seq<ResultView>)
    requires forall k :: k in order ==> k in entries
    ensures |r| == |order| && forall i :: 0 <= i < |order| ==> r[i] == entries[order[i]]
  {
    if order == [] then [] else [entries[order[0]]] + AllAlong(order[1..], entries)
  }

  // ---------------------------------------------------------------------------
  // The manager as the source keeps it
  // ---------------------------------------------------------------------------

  class PendingToolResult {
    const toolId: string
    const toolName: string
    const args: Args
    const result: string
    const timestamp: int
    var added: bool

    constructor (toolId: string, toolName: string, args: Args, result: string, now: int)
      ensures View() == ResultView(toolId, toolName, args, result, now, false)
    {
      this.toolId := toolId;
      this.toolName := toolName;
      this.args := args;
      this.result := result;
      this.timestamp := now;
      added := false;
    }

    function View(): ResultView
      reads this
    {
      ResultView(toolId, toolName, args, result, timestamp, added)
    }
  }

  /** The views of the entries of a dict of result objects. */
  function Views(m: map<string, PendingToolResult>): (r: map<string, ResultView>)
    reads m.Values
    ensures r.Keys == m.Keys
  {
    map k | k in m :: m[k].View()
  }

  /** Dropping keys from the dict drops the same keys from its views. */
  lemma ViewsRemove(m: map<string, PendingToolResult>, gone: set<string>)
    ensures Views(m - gone) == map k | k in m && k !in gone :: Views(m)[k]
  {
  }

  /** Storing an object under a key changes only that key's view. */
  lemma ViewsUpdate(m: map<string, PendingToolResult>, k: string, p: PendingToolResult)
    ensures Views(m[k := p]) == Views(m)[k := p.View()]
  {
  }

  class PendingToolResultsManager {
    var results: map<string, PendingToolResult>
    /** The insertion order of `results`' keys. */
    var order: seq<string>

    ghost predicate Valid()
      reads this
    {
      Distinct(order) && (forall k :: k in order <==> k in results)
      && (forall k :: k in results ==> results[k].toolId == k)
    }

    ghost function Snapshot(): Mailbox
      reads this, results.Values
    {
      Mailbox(order, Views(results))
    }

    constructor ()
      ensures Valid() && Snapshot() == Mailbox([], map[])
    {
      results := map[];
      order := [];
    }

    method AddResult(toolId: string, toolName: string, args: Args, result: string, now: int)
      requires Valid()
      modifies this
      ensures Valid()
      ensures Snapshot() == Add(old(Snapshot()), toolId, toolName, args, result, now)
    {
      ghost var before := Snapshot();
      ghost var initial := results;
      var pending := new PendingToolResult(toolId, toolName, args, result, now);
      if toolId !in results {
        AppendKeepsDistinct(order, toolId);
        order := order + [toolId];
      }
      results := results[toolId := pending];
      ViewsUpdate(initial, toolId, pending);
      ghost var view := pending.View();
      assert Views(initial) == before.entries;
      ghost var added := Add(before, toolId, toolName, args, result, now);
      assert added.entries == before.entries[toolId := view];
    }

    /** `get_unadded_results`, as the views of the returned entries. */
    function GetUnaddedResults(): (r: seq<ResultView>)
      requires Valid()
      reads this, results.Values
      ensures r == Unadded(Snapshot())
    {
      UnaddedAlong(order, Views(results))
    }

    method MarkAsAdded(toolId: string)
      requires Valid()
      modifies results.Values
      ensures Valid() && results == old(results) && order == old(order)
      ensures Snapshot() == MarkAdded(old(Snapshot()), toolId)
    {
      if toolId in results {
        ghost var before := Snapshot();
        var entry := results[toolId];
        entry.added := true;
        assert forall k :: k in results && k != toolId ==> results[k].toolId != entry.toolId;
        assert Snapshot().entries == before.entries[toolId := entry.View()];
      }
    }

    method MarkAllAsAdded(toolIds: seq<string>)
      requires Valid()
      modifies results.Values
      ensures Valid() && results == old(results) && order == old(order)
      ensures Snapshot() == MarkAll(old(Snapshot()), toolIds)
    {
      for i := 0 to |toolIds|
        invariant Valid() && results == old(results) && order == old(order)
        invariant Snapshot() == MarkAll(old(Snapshot()), toolIds[..i])
      {
        assert toolIds[..i + 1][..i] == toolIds[..i];
        MarkAsAdded(toolIds[i]);
      }
      assert toolIds[..|toolIds|] == toolIds;
    }

    /** `del self.results[toolId]` for a stored id. */
    method Remove(toolId: string)
      requires Valid() && toolId in results
      modifies this
      ensures Valid()
      ensures results == old(results) - {toolId} && order == Exclude(old(order), {toolId})
    {
      results := results - {toolId};
      order := Exclude(order, {toolId});
    }

    /** The deletion loop of `cleanup_old_results`: `del` each id of `toRemove`. */
    method RemoveAll(toRemove: set<string>)
      requires Valid() && toRemove <= results.Keys
      modifies this
      ensures Valid()
      ensures results == old(results) - toRemove && order == Exclude(old(order), toRemove)
    {
      var initial, initialOrder := results, order;
      var kept, keptOrder := results, order;
      var left := toRemove;
      ghost var removed: set<string> := {};
      ExcludeNothing(initialOrder);
      while left != {}
        invariant left !! removed && left + removed == toRemove
        invariant kept == initial - removed
        invariant keptOrder == Exclude(initialOrder, removed)
        decreases left
      {
        var k :| k in left;
        ExcludeMore(initialOrder, removed, k);
        RemoveMore(initial, removed, k);
        kept := kept - {k};
        keptOrder := Exclude(keptOrder, {k});
        left := left - {k};
        removed := removed + {k};
      }
      KeptEntriesValid(initialOrder, initial, toRemove);
      results := kept;
      order := keptOrder;
    }

    /** Dropping a set of ids from the dict and from its order keeps the two in agreement. */
    static lemma KeptEntriesValid(order: seq<string>, results: map<string, PendingToolResult>, gone: set<string>)
      requires Distinct(order) && (forall k :: k in order <==> k in results)
      requires forall k :: k in results ==> results[k].toolId == k
      ensures Distinct(Exclude(order, gone))
      ensures forall k :: k in Exclude(order, gone) <==> k in results - gone
    {
    }

    method CleanupOldResults(now: int, maxAge: int)
      requires Valid()
      modifies this
      ensures Valid()
      ensures Snapshot() == Cleanup(old(Snapshot()), now, maxAge)
    {
      ghost var before, stored := Snapshot(), results;
      var toRemove := set k | k in results && Stale(results[k].View(), now, maxAge);
      assert toRemove == StaleKeys(before, now, maxAge);
      RemoveAll(toRemove);
      ViewsRemove(stored, toRemove);
      assert Snapshot().entries == Cleanup(before, now, maxAge).entries;
    }

    /** `get_all_results`, as the views of every entry in dict order. */
    function GetAllResults(): (r: seq<ResultView>)
      requires Valid()
      reads this, results.Values
      ensures |r| == |results| == |order|
      ensures forall i :: 0 <= i < |r| ==> r[i] == Snapshot().entries[order[i]]
    {
      DistinctKeysCount(order, results.Keys);
      AllAlong(order, Views(results))
    }
  }

  lemma AppendKeepsDistinct(s: seq<string>, x: string)
    requires Distinct(s) && x !in s
    ensures Distinct(s + [x])
  {
  }

  lemma {:induction false} ExcludeNothing(s: seq<string>)
    ensures Exclude(s, {}) == s
  {
    if s != [] {
      ExcludeNothing(s[1..]);
    }
  }

  /** Dropping `k` after dropping `gone` is dropping `gone + {k}`. */
  lemma {:induction false} ExcludeMore(s: seq<string>, gone: set<string>, k: string)
    ensures Exclude(Exclude(s, gone), {k}) == Exclude(s, gone + {k})
  {
    if s != [] {
      ExcludeMore(s[1..], gone, k);
    }
  }

  /** `x` occurs in `s` at some position before one holding `y`. */
  ghost predicate Before(s: seq<string>, x: string, y: string)
  {
    exists p, q :: 0 <= p < q < |s| && s[p] == x && s[q] == y
  }

  /** The `i`-th and `j`-th ids left after dropping `gone` occur in `s` in that order. */
  lemma {:induction false} ExcludePairOrder(s: seq<string>, gone: set<string>, i: nat, j: nat)
    requires i < j < |Exclude(s, gone)|
    ensures Before(s, Exclude(s, gone)[i], Exclude(s, gone)[j])
    decreases |s|
  {
    var rest := Exclude(s[1..], gone);
    var r := Exclude(s, gone);
    if s[0] in gone {
      assert r == rest;
      ExcludePairOrder(s[1..], gone, i, j);
      var p, q :| 0 <= p < q < |s[1..]| && s[1..][p] == rest[i] && s[1..][q] == rest[j];
      assert s[p + 1] == r[i] && s[q + 1] == r[j];
    } else if i == 0 {
      assert r[j] == rest[j - 1] && rest[j - 1] in s[1..];
      var q :| 0 <= q < |s[1..]| && s[1..][q] == r[j];
      assert s[0] == r[0] && s[q + 1] == r[j];
    } else {
      assert r == [s[0]] + rest && r[i] == rest[i - 1] && r[j] == rest[j - 1];
      ExcludePairOrder(s[1..], gone, i - 1, j - 1);
      var p, q :| 0 <= p < q < |s[1..]| && s[1..][p] == rest[i - 1] && s[1..][q] == rest[j - 1];
      assert s[p + 1] == r[i] && s[q + 1] == r[j];
    }
  }

  /**
   * Dropping ids keeps the relative order of the rest: of any two ids left,
   * the earlier one also comes earlier in `s`.
   */
  lemma ExcludeKeepsOrder(s: seq<string>, gone: set<string>)
    ensures var r := Exclude(s, gone);
            forall i, j :: 0 <= i < j < |r| ==> Before(s, r[i], r[j])
  {
    forall i: nat, j: nat | i < j < |Exclude(s, gone)|
      ensures Before(s, Exclude(s, gone)[i], Exclude(s, gone)[j])
    {
      ExcludePairOrder(s, gone, i, j);
    }
  }

  /** The ids whose result has already been copied into a prompt. */
  ghost function AddedKeys(b: Mailbox): set<string>
  {
    set k | k in b.entries && b.entries[k].added
  }

  /** Taking the unadded entries along `order` is taking every entry along `order` once the added ids are dropped. */
  lemma {:induction false} UnaddedAlongIsKept(order: seq<string>, entries: map<string, ResultView>, gone: set<string>)
    requires forall k :: k in order ==> k in entries
    requires forall k :: k in order ==> (k in gone <==> entries[k].added)
    ensures UnaddedAlong(order, entries) == AllAlong(Exclude(order, gone), entries)
  {
    if order != [] {
      UnaddedAlongIsKept(order[1..], entries, gone);
    }
  }

  /**
   * `get_unadded_results` follows the dict order: its entries are those of
   * the dict's keys with the added ones dropped, in key order, each key
   * once. A re-added id keeps its old place (`Add`), so this is insertion
   * order and not the order of the timestamps.
   */
  lemma UnaddedInDictOrder(b: Mailbox)
    requires WellFormed(b)
    ensures Distinct(Exclude(b.order, AddedKeys(b)))
    ensures forall k :: k in Exclude(b.order, AddedKeys(b)) <==> k in b.entries && !b.entries[k].added
    ensures forall i, j :: 0 <= i < j < |Exclude(b.order, AddedKeys(b))| ==>
              Before(b.order, Exclude(b.order, AddedKeys(b))[i], Exclude(b.order, AddedKeys(b))[j])
    ensures Unadded(b) == AllAlong(Exclude(b.order, AddedKeys(b)), b.entries)
  {
    UnaddedAlongIsKept(b.order, b.entries, AddedKeys(b));
    ExcludeKeepsOrder(b.order, AddedKeys(b));
  }

  /**
   * A result re-added after a later one was produced is still delivered
   * first: `a` is re-added at time 3, after `b` at time 2, and keeps its
   * place ahead of `b`.
   */
  lemma ReAddedKeepsPlace()
    ensures var b1 := Add(Add(Mailbox([], map[]), "a", "t", [], "x", 1), "b", "t", [], "y", 2);
            var b2 := Add(b1, "a", "t", [], "z", 3);
            && Unadded(b2) == [b2.entries["a"], b2.entries["b"]]
            && b2.entries["a"].timestamp > b2.entries["b"].timestamp
  {
    var b1 := Add(Add(Mailbox([], map[]), "a", "t", [], "x", 1), "b", "t", [], "y", 2);
    var b2 := Add(b1, "a", "t", [], "z", 3);
    assert b2.order == ["a", "b"];
    assert UnaddedAlong(b2.order[1..], b2.entries) == [b2.entries["b"]];
  }

  /** Dropping `k` after dropping `gone` from a map is dropping `gone + {k}`. */
  lemma RemoveMore<V>(m: map<string, V>, gone: set<string>, k: string)
    ensures m - gone - {k} == m - (gone + {k})
  {
  }

  /** A sequence without repetitions listing exactly a set's elements is as long as the set is large. */
  lemma {:induction false} DistinctKeysCount(s: seq<string>, keys: set<string>)
    requires Distinct(s) && forall k :: k in s <==> k in keys
    ensures |s| == |keys|
  {
    if s != [] {
      var rest := keys - {s[0]};
      assert forall k :: k in s[1..] <==> k in rest by {
        forall k ensures k in s[1..] <==> k in rest {
          if k in s[1..] {
            var i :| 0 <= i < |s[1..]| && s[1..][i] == k;
            assert s[i + 1] == k;
          }
        }
      }
      DistinctKeysCount(s[1..], rest);
    }
  }

  // ---------------------------------------------------------------------------
  // Properties
  // ---------------------------------------------------------------------------

  /**
   * After `mark_all_as_added(ids)`, an entry's flag is set exactly when it
   * was set before or its id is listed; every other field is unchanged and
   * unknown ids are ignored.
   */
  lemma {:induction false} MarkAllSetsListed(b: Mailbox, toolIds: seq<string>)
    requires WellFormed(b)
    ensures var r := MarkAll(b, toolIds);
            forall k :: k in b.entries ==>
              r.entries[k] == b.entries[k].(added := b.entries[k].added || k in toolIds)
    decreases |toolIds|
  {
    if toolIds != [] {
      var init := toolIds[..|toolIds| - 1];
      var last := toolIds[|toolIds| - 1];
      MarkAllSetsListed(b, init);
      assert forall k :: k in toolIds <==> k in init || k == last by {
        assert toolIds == init + [last];
      }
      var before := MarkAll(b, init);
      var r := MarkAll(b, toolIds);
      assert r == MarkAdded(before, last);
      forall k | k in b.entries
        ensures r.entries[k] == b.entries[k].(added := b.entries[k].added || k in toolIds)
      {
        if k == last {
          assert r.entries[k] == before.entries[k].(added := true);
        } else {
          assert r.entries[k] == before.entries[k];
        }
      }
    }
  }

  /** What happens to the mailbox, one locked call at a time. */
  datatype MailboxOp =
    | AddOp(toolId: string, toolName: string, args: Args, result: string, now: int)
    | MarkOp(toolId: string)
    | MarkAllOp(toolIds: seq<string>)
    | CleanupOp(now: int, maxAge: int)

  function Apply(b: Mailbox, op: MailboxOp): (r: Mailbox)
    requires WellFormed(b)
    ensures WellFormed(r)
  {
    match op
    case AddOp(id, name, args, result, now) => Add(b, id, name, args, result, now)
    case MarkOp(id) => MarkAdded(b, id)
    case MarkAllOp(ids) => MarkAll(b, ids)
    case CleanupOp(now, maxAge) => Cleanup(b, now, maxAge)
  }

  function RunAll(b: Mailbox, ops: seq<MailboxOp>): (r: Mailbox)
    requires WellFormed(b)
    ensures WellFormed(r)
    decreases |ops|
  {
    if ops == [] then b else RunAll(Apply(b, ops[0]), ops[1..])
  }

  /**
   * Once a result is marked added, only a new `add_result` for its id makes
   * it unadded again: through any other calls it stays added, or is removed.
   */
  lemma {:induction false} OnlyAddResetsFlag(b: Mailbox, ops: seq<MailboxOp>, id: string)
    requires WellFormed(b) && id in b.entries && b.entries[id].added
    requires forall i :: 0 <= i < |ops| ==> !(ops[i].AddOp? && ops[i].toolId == id)
    ensures var r := RunAll(b, ops);
            id in r.entries ==> r.entries[id].added
    decreases |ops|
  {
    if ops != [] {
      var b1 := Apply(b, ops[0]);
      if ops[0].MarkAllOp? {
        MarkAllSetsListed(b, ops[0].toolIds);
      }
      if id in b1.entries {
        assert b1.entries[id].added;
        assert forall i :: 0 <= i < |ops[1..]| ==> ops[1..][i] == ops[i + 1];
        OnlyAddResetsFlag(b1, ops[1..], id);
      } else {
        StaysRemoved(b1, ops[1..], id);
      }
    }
  }

  /** An id that is gone stays gone until `add_result` stores it again. */
  lemma {:induction false} StaysRemoved(b: Mailbox, ops: seq<MailboxOp>, id: string)
    requires WellFormed(b) && id !in b.entries
    requires forall i :: 0 <= i < |ops| ==> !(ops[i].AddOp? && ops[i].toolId == id)
    ensures id !in RunAll(b, ops).entries
    decreases |ops|
  {
    if ops != [] {
      assert forall i :: 0 <= i < |ops[1..]| ==> ops[1..][i] == ops[i + 1];
      StaysRemoved(Apply(b, ops[0]), ops[1..], id);
    }
  }

  /** Every call keeps each entry stored under its own id. */
  lemma {:induction false} RunKeepsKeyed(b: Mailbox, ops: seq<MailboxOp>)
    requires WellFormed(b) && KeyedById(b)
    ensures KeyedById(RunAll(b, ops))
    decreases |ops|
  {
    if ops != [] {
      if ops[0].MarkAllOp? {
        MarkAllSetsListed(b, ops[0].toolIds);
      }
      RunKeepsKeyed(Apply(b, ops[0]), ops[1..]);
    }
  }

  /** Re-adding an id replaces its entry with a fresh, unadded one, in the same place. */
  lemma ReAddReplaces(b: Mailbox, toolId: string, toolName: string, args: Args, result: string, now: int)
    requires WellFormed(b) && toolId in b.entries && b.entries[toolId].added
    ensures var r := Add(b, toolId, toolName, args, result, now);
            r.order == b.order && !r.entries[toolId].added && r.entries[toolId].result == result
            && r.entries[toolId] in Unadded(r)
  {
  }
}
