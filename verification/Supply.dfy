/** Supply readiness: which entries concern an operation, which block it, and the latest
    date it has to wait for. */
module Supply {
  import opened Minutes
  import opened Intervals
  import opened Bundle

  predicate Concerns(e: SupplyEntry, lineId: string, opCode: string) {
    e.lineId == lineId && (e.opCode.None? || e.opCode.value == "" || e.opCode.value == opCode)
  }

  predicate Blocking(e: SupplyEntry, lineId: string, opCode: string) {
    Concerns(e, lineId, opCode) && !e.ready && e.readyAt.None?
  }

  predicate DatedEntry(e: SupplyEntry, lineId: string, opCode: string) {
    Concerns(e, lineId, opCode) && !e.ready && e.readyAt.Some?
  }

  ghost predicate Blocked(supply: seq<SupplyEntry>, lineId: string, opCode: string) {
    exists e :: e in supply && Blocking(e, lineId, opCode)
  }

  /** The dates an operation has to wait for. */
  ghost function Dates(supply: seq<SupplyEntry>, lineId: string, opCode: string): set<int> {
    set e | e in supply && DatedEntry(e, lineId, opCode) :: e.readyAt.value
  }

  /** An entry of the line, for all its operations or for this one, is neither ready nor dated. */
  ghost predicate MissingFor(supply: seq<SupplyEntry>, lineId: string, opCode: string) {
    exists k :: 0 <= k < |supply| && supply[k].lineId == lineId && !supply[k].ready && supply[k].readyAt.None?
                && (supply[k].opCode.None? || supply[k].opCode.value == "" || supply[k].opCode.value == opCode)
  }

  /** Such an entry is not ready before t. */
  ghost predicate DatedFor(supply: seq<SupplyEntry>, lineId: string, opCode: string, t: int) {
    exists k :: 0 <= k < |supply| && supply[k].lineId == lineId && !supply[k].ready && supply[k].readyAt == Some(t)
                && (supply[k].opCode.None? || supply[k].opCode.value == "" || supply[k].opCode.value == opCode)
  }

  lemma BlockedIff(supply: seq<SupplyEntry>, lineId: string, opCode: string)
    ensures Blocked(supply, lineId, opCode) <==> MissingFor(supply, lineId, opCode)
  {
    if Blocked(supply, lineId, opCode) {
      var e :| e in supply && Blocking(e, lineId, opCode);
      var k :| 0 <= k < |supply| && supply[k] == e;
    }
    if MissingFor(supply, lineId, opCode) {
      var k :| 0 <= k < |supply| && Blocking(supply[k], lineId, opCode);
      assert supply[k] in supply;
    }
  }

  lemma DatesIff(supply: seq<SupplyEntry>, lineId: string, opCode: string, t: int)
    ensures t in Dates(supply, lineId, opCode) <==> DatedFor(supply, lineId, opCode, t)
  {
    if t in Dates(supply, lineId, opCode) {
      var e :| e in supply && DatedEntry(e, lineId, opCode) && e.readyAt.value == t;
      var k :| 0 <= k < |supply| && supply[k] == e;
    }
    if DatedFor(supply, lineId, opCode, t) {
      var k :| 0 <= k < |supply| && DatedEntry(supply[k], lineId, opCode) && supply[k].readyAt == Some(t);
      assert supply[k] in supply;
    }
  }

  ghost predicate IsLatest(dates: set<int>, t: int) {
    t in dates && forall d :: d in dates ==> d <= t
  }

  function Concerning(supply: seq<SupplyEntry>, lineId: string, opCode: string): (r: seq<SupplyEntry>)
    ensures forall e :: e in r <==> e in supply && Concerns(e, lineId, opCode)
  {
    if supply == [] then []
    else (if Concerns(supply[0], lineId, opCode) then [supply[0]] else []) + Concerning(supply[1..], lineId, opCode)
  }

  method SupplyReady(supply: seq<SupplyEntry>, lineId: string, opCode: string)
      returns (anchor: Option<int>, blocker: Option<SupplyEntry>)
    ensures blocker.Some? <==> Blocked(supply, lineId, opCode)
    ensures blocker.Some? <==> MissingFor(supply, lineId, opCode)
    ensures blocker.Some? ==> blocker.value in supply && Blocking(blocker.value, lineId, opCode)
    ensures blocker.None? && anchor.None? ==> Dates(supply, lineId, opCode) == {}
    ensures blocker.None? && anchor.Some? ==> IsLatest(Dates(supply, lineId, opCode), anchor.value)
    ensures blocker.None? ==> forall t :: DatedFor(supply, lineId, opCode, t) ==> anchor.Some? && t <= anchor.value
    ensures blocker.None? && anchor.Some? ==> DatedFor(supply, lineId, opCode, anchor.value)
  {
    BlockedIff(supply, lineId, opCode);
    forall t
      ensures t in Dates(supply, lineId, opCode) <==> DatedFor(supply, lineId, opCode, t)
    {
      DatesIff(supply, lineId, opCode, t);
    }
    hide MissingFor, DatedFor;
    var entries := Concerning(supply, lineId, opCode);
    anchor, blocker := None, None;
    for i := 0 to |entries|
      invariant blocker.None?
      invariant forall k :: 0 <= k < i ==> !Blocking(entries[k], lineId, opCode)
      invariant anchor.None? ==> forall k :: 0 <= k < i ==> !DatedEntry(entries[k], lineId, opCode)
      invariant anchor.Some? ==> anchor.value in Dates(supply, lineId, opCode)
      invariant anchor.Some? ==> forall k :: 0 <= k < i && DatedEntry(entries[k], lineId, opCode) ==>
        entries[k].readyAt.value <= anchor.value
    {
      var e := entries[i];
      assert e in supply && Concerns(e, lineId, opCode);
      if e.ready {
        continue;
      }
      if e.readyAt.None? {
        assert Blocking(e, lineId, opCode);
        return anchor, Some(e);
      }
      var t := e.readyAt.value;
      assert DatedEntry(e, lineId, opCode);
      anchor := if anchor.None? then Some(t) else Some(Max(anchor.value, t));
    }
    forall e | e in supply && Concerns(e, lineId, opCode)
      ensures !Blocking(e, lineId, opCode)
      ensures DatedEntry(e, lineId, opCode) ==> anchor.Some? && e.readyAt.value <= anchor.value
    {
      assert e in entries;
      var k :| 0 <= k < |entries| && entries[k] == e;
    }
  }
}
