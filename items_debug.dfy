/**
 * The item system's debug queries (gameplay/items/items_debug.c): read-only
 * views of the box table and the track-item pool.
 */
module ItemsDebug {
  import opened GameTypes
  import opened ItemState

  /** Items_GetBoxSpawns: the box table and the number of boxes in use. */
  method GetBoxSpawns(pool: ItemPool) returns (boxes: array<ItemBoxSpawn>, count: int)
    requires pool.Valid()
    ensures boxes == pool.itemBoxSpawns && count == pool.itemBoxCount
    ensures 0 <= count <= MAX_ITEM_BOX_SPAWNS
  {
    count := pool.itemBoxCount;
    boxes := pool.itemBoxSpawns;
  }

  /** Items_GetActiveItems: the pool and the number of its active slots. */
  method GetActiveItems(pool: ItemPool) returns (items: array<TrackItem>, count: int)
    requires pool.Valid()
    ensures items == pool.activeItems
    ensures count == ActiveCount(pool.activeItems[..]) == |ActiveSlots(pool.activeItems[..])|
    ensures 0 <= count <= MAX_TRACK_ITEMS
  {
    var activeCount := 0;
    var i := 0;
    while i < MAX_TRACK_ITEMS
      invariant 0 <= i <= MAX_TRACK_ITEMS
      invariant activeCount == ActiveCount(pool.activeItems[..i])
    {
      assert pool.activeItems[..i + 1][..i] == pool.activeItems[..i];
      if pool.activeItems[i].active {
        activeCount := activeCount + 1;
      }
      i := i + 1;
    }
    assert pool.activeItems[..MAX_TRACK_ITEMS] == pool.activeItems[..];
    ActiveCountIsActiveSlots(pool.activeItems[..]);
    count := activeCount;
    items := pool.activeItems;
  }
}
