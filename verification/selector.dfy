/** The table selector: match_dvfs_one and the first-match scans of the
    init_*_dvfs_table functions. */
module Selector {
  import opened Common

  /** The (speedo id, process id) key of a characterization entry or of a
      clock's DVFS table; -1 is a wildcard. */
  datatype MatchKey = MatchKey(speedoId: int, processId: int)

  const WILDCARD: int := -1

  /** match_dvfs_one: an entry is rejected when its process id or its speedo
      id is neither the wildcard nor the chip's id. */
  predicate MatchDvfsOne(key: MatchKey, speedoId: int, processId: int): (m: bool)
    ensures m <==> (key.speedoId == WILDCARD || key.speedoId == speedoId)
                   && (key.processId == WILDCARD || key.processId == processId)
    ensures key == MatchKey(WILDCARD, WILDCARD) ==> m
    ensures key.speedoId != WILDCARD && key.processId != WILDCARD ==>
              (m <==> key.speedoId == speedoId && key.processId == processId)
  {
    !((key.processId != WILDCARD && key.processId != processId)
      || (key.speedoId != WILDCARD && key.speedoId != speedoId))
  }

  /** The first entry, at index `from` or later, whose key matches. */
  function SelectFrom(keys: seq<MatchKey>, speedoId: int, processId: int, from: nat): (r: Option<nat>)
    requires from <= |keys|
    ensures r.Some? ==> from <= r.value < |keys| && MatchDvfsOne(keys[r.value], speedoId, processId)
    ensures r.Some? ==> forall k :: from <= k < r.value ==> !MatchDvfsOne(keys[k], speedoId, processId)
    ensures r.None? <==> forall k :: from <= k < |keys| ==> !MatchDvfsOne(keys[k], speedoId, processId)
    decreases |keys| - from
  {
    if from == |keys| then None
    else if MatchDvfsOne(keys[from], speedoId, processId) then Some(from)
    else SelectFrom(keys, speedoId, processId, from + 1)
  }

  /** First match in table order: table order encodes priority. */
  function SelectFirst(keys: seq<MatchKey>, speedoId: int, processId: int): (r: Option<nat>)
    ensures r.Some? ==> r.value < |keys| && MatchDvfsOne(keys[r.value], speedoId, processId)
    ensures r.Some? ==> forall k :: 0 <= k < r.value ==> !MatchDvfsOne(keys[k], speedoId, processId)
    ensures r.None? <==> forall k :: 0 <= k < |keys| ==> !MatchDvfsOne(keys[k], speedoId, processId)
  {
    SelectFrom(keys, speedoId, processId, 0)
  }

  /** A table that ends with a full wildcard entry always selects something,
      and never anything after an earlier match. */
  lemma {:induction false} WildcardTailAlwaysSelects(keys: seq<MatchKey>, speedoId: int, processId: int, k: nat)
    requires k < |keys| && keys[k] == MatchKey(WILDCARD, WILDCARD)
    ensures SelectFirst(keys, speedoId, processId).Some?
    ensures SelectFirst(keys, speedoId, processId).value <= k
  {
    assert MatchDvfsOne(keys[k], speedoId, processId);
  }

  /** The selection is the first matching entry: an entry that matches
      with no match before it is the one selected. */
  lemma FirstMatchSelected(keys: seq<MatchKey>, speedoId: int, processId: int, k: nat)
    requires k < |keys| && MatchDvfsOne(keys[k], speedoId, processId)
    requires forall j :: 0 <= j < k ==> !MatchDvfsOne(keys[j], speedoId, processId)
    ensures SelectFirst(keys, speedoId, processId) == Some(k)
  {
  }

  /** Putting entries in front of a table can only take priority away from
      the entries behind them: the selection either lands in the new prefix
      or is the old selection shifted. */
  lemma {:induction false} PrefixTakesPriority(front: seq<MatchKey>, keys: seq<MatchKey>, speedoId: int, processId: int)
    ensures var r := SelectFirst(front + keys, speedoId, processId);
            var q := SelectFirst(front, speedoId, processId);
            var t := SelectFirst(keys, speedoId, processId);
            if q.Some? then r == q
            else if t.Some? then r == Some(|front| + t.value)
            else r.None?
  {
    var all := front + keys;
    var r := SelectFirst(all, speedoId, processId);
    var q := SelectFirst(front, speedoId, processId);
    var t := SelectFirst(keys, speedoId, processId);
    if q.Some? {
      assert all[q.value] == front[q.value];
      assert forall k :: 0 <= k < q.value ==> all[k] == front[k];
    } else if t.Some? {
      assert all[|front| + t.value] == keys[t.value];
      assert forall k :: 0 <= k < |front| ==> all[k] == front[k];
      assert forall k :: |front| <= k < |front| + t.value ==> all[k] == keys[k - |front|];
    } else {
      forall k | 0 <= k < |all|
        ensures !MatchDvfsOne(all[k], speedoId, processId)
      {
        if k < |front| { assert all[k] == front[k]; } else { assert all[k] == keys[k - |front|]; }
      }
    }
  }
}
