/**
 * The bot's shared mutable state: JavaScript arrays of chat turns (shared by reference
 * between the per-group history store and the code that appends to them), the
 * process-wide list of groups with a request in flight, and the per-group history
 * store behind `readGroupMessages(groupId, seed)`, which hands out the group's array,
 * creating it from `seed` on first use.
 */
module Store {
  import opened Js
  import opened Schemas

  /** A JavaScript array of turns; every holder of the reference sees every change. */
  class TurnList {
    var turns: seq<Turn>

    constructor (init: seq<Turn>)
      ensures turns == init
    {
      turns := init;
    }

    /** `push(t)` */
    method Push(t: Turn)
      modifies this
      ensures turns == old(turns) + [t]
    {
      turns := turns + [t];
    }

    /** `push(...ts)` */
    method PushAll(ts: seq<Turn>)
      modifies this
      ensures turns == old(turns) + ts
    {
      turns := turns + ts;
    }

    /** `splice(0, deleteCount)`: drops the first `deleteCount` turns (all of them if there are fewer). */
    method SpliceFront(deleteCount: nat)
      modifies this
      ensures turns == if deleteCount <= |old(turns)| then old(turns)[deleteCount..] else []
    {
      turns := if deleteCount <= |turns| then turns[deleteCount..] else [];
    }

    /** `splice(start)`: drops everything from the (relative) `start` on. */
    method SpliceFrom(start: int)
      modifies this
      ensures turns == old(turns)[..RelativeStart(|old(turns)|, start)]
    {
      turns := turns[..RelativeStart(|turns|, start)];
    }

    /** `unshift(...ts)` */
    method Unshift(ts: seq<Turn>)
      modifies this
      ensures turns == ts + old(turns)
    {
      turns := ts + turns;
    }

    /** `pop()`: drops the last turn; an empty array stays empty. */
    method Pop()
      modifies this
      ensures turns == if old(turns) == [] then [] else old(turns)[..|old(turns)| - 1]
    {
      if turns != [] {
        turns := turns[..|turns| - 1];
      }
    }
  }

  // ---------------------------------------------------------------------------
  // The pending-group list
  // ---------------------------------------------------------------------------

  /** `ids.splice(ids.indexOf(id), 1)`, as the array is afterwards. */
  function RemoveAtIndexOf(ids: seq<int>, id: int): seq<int> {
    SpliceOne(ids, IndexOf(ids, id))
  }

  /** With the id present, exactly its first occurrence goes. */
  lemma RemoveAtIndexOfPresent(ids: seq<int>, id: int)
    requires id in ids
    ensures |RemoveAtIndexOf(ids, id)| == |ids| - 1
    ensures multiset(RemoveAtIndexOf(ids, id)) == multiset(ids) - multiset{id}
  {
    var i := IndexOf(ids, id);
    assert ids == ids[..i] + [id] + ids[i + 1..];
  }

  /** With the id absent, `indexOf` is -1 and `splice(-1, 1)` drops the LAST entry, whoever it belongs to. */
  lemma RemoveAtIndexOfAbsent(ids: seq<int>, id: int)
    requires id !in ids && ids != []
    ensures RemoveAtIndexOf(ids, id) == ids[..|ids| - 1]
  {
  }

  /** Pushing an id that was not pending and then splicing it out restores the list exactly. */
  lemma PushThenRemove(ids: seq<int>, id: int)
    requires id !in ids
    ensures RemoveAtIndexOf(ids + [id], id) == ids
  {
    var s := ids + [id];
    assert s[..|ids|] == ids;
  }

  /** Pushing an id that was not pending and filtering it out again restores the list exactly. */
  lemma PushThenFilter(ids: seq<int>, id: int)
    requires id !in ids
    ensures Without(ids + [id], id) == ids
  {
    WithoutAppend(ids, [id], id);
    assert Without([id], id) == Without([], id);
  }

  /** A JavaScript array of group ids, shared by every request handler of the process. */
  class PendingList {
    var ids: seq<int>

    constructor ()
      ensures ids == []
    {
      ids := [];
    }

    /** `ids.includes(id)` */
    predicate Includes(id: int)
      reads this
    {
      id in ids
    }

    /** `ids.push(id)` */
    method Push(id: int)
      modifies this
      ensures ids == old(ids) + [id]
    {
      ids := ids + [id];
    }

    /** `ids.splice(ids.indexOf(id), 1)` */
    method SpliceIndexOf(id: int)
      modifies this
      ensures ids == RemoveAtIndexOf(old(ids), id)
    {
      var i := IndexOf(ids, id);
      ids := SpliceOne(ids, i);
    }
  }

  // ---------------------------------------------------------------------------
  // Per-group histories
  // ---------------------------------------------------------------------------

  /** The per-group history store: group id to that group's (shared) array of turns. */
  class GroupHistories {
    var lists: map<int, TurnList>

    /** Different groups never share an array. */
    ghost predicate Valid()
      reads this
    {
      forall g1, g2 :: g1 in lists && g2 in lists && g1 != g2 ==> lists[g1] != lists[g2]
    }

    constructor ()
      ensures Valid() && lists == map[]
    {
      lists := map[];
    }

    /** `readGroupMessages(groupId, seed)`: the group's array, created from `seed` when the group has none. */
    method Read(groupId: int, seed: seq<Turn>) returns (l: TurnList)
      requires Valid()
      modifies this
      ensures Valid()
      ensures groupId in lists && l == lists[groupId]
      ensures groupId in old(lists) ==> lists == old(lists)
      ensures groupId !in old(lists) ==> fresh(l) && l.turns == seed && lists == old(lists)[groupId := l]
    {
      if groupId in lists {
        l := lists[groupId];
      } else {
        l := new TurnList(seed);
        lists := lists[groupId := l];
      }
    }

    /**
     * `readGroupMessages(groupId, seed).push(...ts)`: the group's history (created from
     * `seed` on first use) gains `ts` at its end; no other group's history changes.
     */
    method ReadAndAppend(groupId: int, seed: seq<Turn>, ts: seq<Turn>) returns (l: TurnList)
      requires Valid()
      modifies this, lists.Values
      ensures Valid()
      ensures groupId in lists && l == lists[groupId]
      ensures l.turns == (if groupId in old(lists) then old(lists[groupId].turns) else seed) + ts
      ensures groupId in old(lists) ==> l == old(lists[groupId])
      ensures groupId !in old(lists) ==> fresh(l)
      ensures lists.Keys == old(lists.Keys) + {groupId}
      ensures forall g :: g in old(lists) && g != groupId ==>
                lists[g] == old(lists[g]) && lists[g].turns == old(lists[g].turns)
    {
      l := Read(groupId, seed);
      l.PushAll(ts);
    }
  }
}
