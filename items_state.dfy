/**
 * The item system's shared state (gameplay/items/items_internal.h and
 * items_state.c): a pool of MAX_TRACK_ITEMS track items, a table of at most
 * MAX_ITEM_BOX_SPAWNS item boxes of which the first itemBoxCount are in use,
 * and the local player's status effects. All of it is updated in place.
 */
module ItemState {
  import opened FixedMath
  import opened GameTypes
  import opened ItemEffects

  /** A slot of the track-item pool (the sprite pointer is left out). */
  datatype TrackItem = TrackItem(
    kind: int, position: Vec2, startPosition: Vec2, speed: int, angle512: int,
    hitboxWidth: int, hitboxHeight: int, lifetimeTicks: int, targetCarIndex: int, active: bool,
    currentWaypoint: int, waypointsVisited: int, usePathFollowing: bool,
    shooterCarIndex: int, immunityTimer: int, startingWaypoint: int, hasCompletedLap: bool)

  /** An item box location (the sprite pointer is left out). */
  datatype ItemBoxSpawn = ItemBoxSpawn(position: Vec2, active: bool, respawnTimer: int)

  /** What the item code reads from the race state: mode, local player, car count and map. */
  datatype RaceView = RaceView(gameMode: GameMode, playerIndex: int, carCount: int, currentMap: Map)

  /** A zero-initialised pool slot. */
  const EMPTY_ITEM: TrackItem :=
    TrackItem(ITEM_NONE, Vec2(0, 0), Vec2(0, 0), 0, 0, 0, 0, 0, 0, false, 0, 0, false, 0, 0, 0, false)

  /** A zero-initialised box slot. */
  const EMPTY_BOX: ItemBoxSpawn := ItemBoxSpawn(Vec2(0, 0), false, 0)

  /** The fixed box positions of Scorching Sands. */
  const SCORCHING_SANDS_BOX_POSITIONS: seq<Vec2> :=
    [FromInt(908, 469), FromInt(967, 466), FromInt(474, 211), FromInt(493, 167), FromInt(47, 483), FromInt(117, 483)]

  /**
   * initItemBoxSpawns: the boxes a map starts with. Scorching Sands has six
   * active boxes with no respawn pending; every other map has none.
   */
  function BoxLayout(m: Map): (boxes: seq<ItemBoxSpawn>)
    ensures |boxes| <= MAX_ITEM_BOX_SPAWNS
    ensures m != ScorchingSands ==> boxes == []
    ensures m == ScorchingSands ==> |boxes| == 6
    ensures forall i | 0 <= i < |boxes| ::
      boxes[i].active && boxes[i].respawnTimer == 0 && boxes[i].position == SCORCHING_SANDS_BOX_POSITIONS[i]
  {
    if m == ScorchingSands then
      seq(|SCORCHING_SANDS_BOX_POSITIONS|, i requires 0 <= i < |SCORCHING_SANDS_BOX_POSITIONS| =>
        ItemBoxSpawn(SCORCHING_SANDS_BOX_POSITIONS[i], true, 0))
    else []
  }

  /** The number of active slots. */
  function ActiveCount(items: seq<TrackItem>): (n: nat)
    ensures n <= |items|
    decreases |items|
  {
    if items == [] then 0
    else ActiveCount(items[..|items| - 1]) + if items[|items| - 1].active then 1 else 0
  }

  /** The indices of the active slots. */
  function ActiveSlots(items: seq<TrackItem>): set<int>
  {
    set i | 0 <= i < |items| && items[i].active
  }

  /** The count is the number of active slot indices. */
  lemma {:induction false} ActiveCountIsActiveSlots(items: seq<TrackItem>)
    ensures ActiveCount(items) == |ActiveSlots(items)|
    decreases |items|
  {
    if items != [] {
      var n := |items| - 1;
      var front := items[..n];
      ActiveCountIsActiveSlots(front);
      assert forall i | 0 <= i < n :: items[i] == front[i];
      if items[n].active {
        assert ActiveSlots(items) == ActiveSlots(front) + {n};
      } else {
        assert ActiveSlots(items) == ActiveSlots(front);
      }
    }
  }

  /** All slots are in use exactly when the count is the pool size; none exactly when it is 0. */
  lemma {:induction false} ActiveCountExtremes(items: seq<TrackItem>)
    ensures ActiveCount(items) == |items| <==> forall i | 0 <= i < |items| :: items[i].active
    ensures ActiveCount(items) == 0 <==> forall i | 0 <= i < |items| :: !items[i].active
    decreases |items|
  {
    if items != [] {
      var n := |items| - 1;
      var front := items[..n];
      ActiveCountExtremes(front);
      assert forall i | 0 <= i < n :: items[i] == front[i];
    }
  }

  /** Filling a free slot with an active item adds exactly one to the count. */
  lemma {:induction false} FillingAFreeSlotCountsOne(items: seq<TrackItem>, s: int, it: TrackItem)
    requires 0 <= s < |items| && !items[s].active && it.active
    ensures ActiveCount(items[s := it]) == ActiveCount(items) + 1
  {
    ActiveCountIsActiveSlots(items);
    ActiveCountIsActiveSlots(items[s := it]);
    assert ActiveSlots(items[s := it]) == ActiveSlots(items) + {s};
  }

  /** The module state shared by the item files. */
  class ItemPool {
    const activeItems: array<TrackItem>
    const itemBoxSpawns: array<ItemBoxSpawn>
    var itemBoxCount: int
    const playerEffects: PlayerItemEffects

    /** Fixed pool sizes; itemBoxCount never exceeds the box table. */
    predicate Valid()
      reads this
    {
      activeItems.Length == MAX_TRACK_ITEMS && itemBoxSpawns.Length == MAX_ITEM_BOX_SPAWNS &&
      0 <= itemBoxCount <= MAX_ITEM_BOX_SPAWNS
    }

    /** The zero-initialised statics. */
    constructor()
      ensures Valid() && fresh(activeItems) && fresh(itemBoxSpawns) && fresh(playerEffects)
      ensures activeItems[..] == seq(MAX_TRACK_ITEMS, _ => EMPTY_ITEM)
      ensures itemBoxSpawns[..] == seq(MAX_ITEM_BOX_SPAWNS, _ => EMPTY_BOX)
      ensures itemBoxCount == 0 && playerEffects.Value() == NO_EFFECTS
    {
      activeItems := new TrackItem[MAX_TRACK_ITEMS](_ => EMPTY_ITEM);
      itemBoxSpawns := new ItemBoxSpawn[MAX_ITEM_BOX_SPAWNS](_ => EMPTY_BOX);
      itemBoxCount := 0;
      playerEffects := new PlayerItemEffects();
    }

    /** clearActiveItems: every slot inactive, nothing else about it changed. */
    method ClearActiveItems()
      requires Valid()
      modifies activeItems
      ensures forall i | 0 <= i < activeItems.Length :: activeItems[i] == old(activeItems[i]).(active := false)
      ensures ActiveCount(activeItems[..]) == 0
    {
      var i := 0;
      while i < MAX_TRACK_ITEMS
        invariant 0 <= i <= MAX_TRACK_ITEMS
        invariant forall k | 0 <= k < i :: activeItems[k] == old(activeItems[k]).(active := false)
        invariant forall k | i <= k < MAX_TRACK_ITEMS :: activeItems[k] == old(activeItems[k])
      {
        activeItems[i] := activeItems[i].(active := false);
        i := i + 1;
      }
      ActiveCountExtremes(activeItems[..]);
    }

    /** initItemBoxSpawns: the map's layout in the first slots; the count is its length. */
    method InitItemBoxSpawns(m: Map)
      requires Valid()
      modifies this, itemBoxSpawns
      ensures Valid()
      ensures itemBoxCount == |BoxLayout(m)|
      ensures itemBoxSpawns[..] == BoxLayout(m) + old(itemBoxSpawns[..])[itemBoxCount..]
    {
      if m != ScorchingSands {
        itemBoxCount := 0;
        return;
      }
      var layout := BoxLayout(m);
      itemBoxCount := 6;
      var i := 0;
      while i < itemBoxCount
        invariant 0 <= i <= itemBoxCount == 6
        invariant itemBoxSpawns[..i] == layout[..i]
        invariant itemBoxSpawns[i..] == old(itemBoxSpawns[..])[i..]
      {
        itemBoxSpawns[i] := ItemBoxSpawn(SCORCHING_SANDS_BOX_POSITIONS[i], true, 0);
        assert itemBoxSpawns[..i + 1] == itemBoxSpawns[..i] + [itemBoxSpawns[i]];
        assert layout[..i + 1] == layout[..i] + [layout[i]];
        assert itemBoxSpawns[i + 1..] == itemBoxSpawns[i..][1..];
        i := i + 1;
      }
      assert itemBoxSpawns[..] == itemBoxSpawns[..6] + itemBoxSpawns[6..];
    }

    /** Items_Init: pool cleared, the map's boxes laid out, effects zeroed. */
    method Init(m: Map)
      requires Valid()
      modifies this, activeItems, itemBoxSpawns, playerEffects
      ensures Valid()
      ensures forall i | 0 <= i < activeItems.Length :: activeItems[i] == old(activeItems[i]).(active := false)
      ensures ActiveCount(activeItems[..]) == 0
      ensures itemBoxCount == |BoxLayout(m)|
      ensures itemBoxSpawns[..] == BoxLayout(m) + old(itemBoxSpawns[..])[itemBoxCount..]
      ensures playerEffects.Value() == NO_EFFECTS
    {
      ClearActiveItems();
      InitItemBoxSpawns(m);
      playerEffects.Clear();
    }

    /**
     * Items_Reset: pool cleared, the boxes in use active again with no
     * respawn pending (positions and count kept), effects zeroed.
     */
    method Reset()
      requires Valid()
      modifies activeItems, itemBoxSpawns, playerEffects
      ensures Valid()
      ensures forall i | 0 <= i < activeItems.Length :: activeItems[i] == old(activeItems[i]).(active := false)
      ensures ActiveCount(activeItems[..]) == 0
      ensures forall i | 0 <= i < itemBoxCount ::
        itemBoxSpawns[i] == old(itemBoxSpawns[i]).(active := true, respawnTimer := 0)
      ensures forall i | itemBoxCount <= i < itemBoxSpawns.Length :: itemBoxSpawns[i] == old(itemBoxSpawns[i])
      ensures playerEffects.Value() == NO_EFFECTS
    {
      ClearActiveItems();
      ghost var cleared := activeItems[..];
      var i := 0;
      while i < itemBoxCount
        invariant 0 <= i <= itemBoxCount
        invariant activeItems[..] == cleared
        invariant forall k | 0 <= k < i :: itemBoxSpawns[k] == old(itemBoxSpawns[k]).(active := true, respawnTimer := 0)
        invariant forall k | i <= k < itemBoxSpawns.Length :: itemBoxSpawns[k] == old(itemBoxSpawns[k])
      {
        itemBoxSpawns[i] := itemBoxSpawns[i].(active := true, respawnTimer := 0);
        i := i + 1;
      }
      playerEffects.Clear();
    }
  }
}
