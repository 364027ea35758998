/**
 * Item use: the four use-item event handlers, of which two are gated on
 * the item's usage type (useItemOnBlock on OnBlock, useItem on OnUser) and
 * two act on any entity with an item component, whatever its usage; stack
 * consumption; and block placement, which puts a block on the face of the
 * targeted block when the ordered placement checks allow it.
 *
 * The world is a map from positions to blocks (a position absent from it
 * has no block); player positions, block colliders and box overlap are
 * opaque queries; sound playback and event dispatch are left out.
 * ItemComponent, BlockItemComponent, Side, Block and BlockFamily are not
 * part of this model: their fields are reduced to those read here.
 */
module Items {
  import opened Wrappers

  datatype Vec3i = Vec3i(x: int, y: int, z: int)

  function Add(a: Vec3i, b: Vec3i): Vec3i
  {
    Vec3i(a.x + b.x, a.y + b.y, a.z + b.z)
  }

  function Abs(n: int): nat
  {
    if n < 0 then -n else n
  }

  /** The six faces of a block. */
  datatype Side = Top | Bottom | Left | Right | Front | Back

  /** The unit vector pointing out of each face (assumed; Side is not modelled). */
  function SideVector(side: Side): (v: Vec3i)
    ensures Abs(v.x) + Abs(v.y) + Abs(v.z) == 1
  {
    match side
    case Top => Vec3i(0, 1, 0)
    case Bottom => Vec3i(0, -1, 0)
    case Left => Vec3i(-1, 0, 0)
    case Right => Vec3i(1, 0, 0)
    case Front => Vec3i(0, 0, -1)
    case Back => Vec3i(0, 0, 1)
  }

  /** The position a block is placed at: the target's neighbour across the surface. */
  function PlacementPos(target: Vec3i, surface: Side): (p: Vec3i)
    ensures p != target
    ensures Abs(p.x - target.x) + Abs(p.y - target.y) + Abs(p.z - target.z) == 1
    ensures p == Add(target, SideVector(surface))
  {
    Add(target, SideVector(surface))
  }

  datatype Vec3f = Vec3f(x: real, y: real, z: real)

  /** An axis-aligned box: its centre and half-extents. */
  datatype Box = Box(center: Vec3f, extents: Vec3f)

  /**
   * The properties of a block that placement reads.  The world holds blocks
   * themselves, which stands for the block id that setBlock records.
   */
  datatype Block = Block(
    allowBlockAttachment: bool,
    invisible: bool,
    selectionRayThrough: bool,
    penetrable: bool,
    hardness: int)

  /** The block a family provides for a pair of faces, if any, and its archetype. */
  datatype BlockFamily = BlockFamily(blockFor: (Side, Side) -> Option<Block>, archetype: Block)

  /** A player entity with location and collision components. */
  datatype Player = Player(worldPosition: Vec3f, extents: Vec3f)

  function PlayerBox(p: Player): Box
  {
    Box(p.worldPosition, p.extents)
  }

  /** The entity and collision queries the placement check makes. */
  datatype Environment = Environment(
    players: seq<Player>,
    colliders: (Block, Vec3i) -> seq<Box>,
    overlaps: (Box, Box) -> bool)

  /** Whether some collider overlaps `box`; the inner loop, leaving at the first hit. */
  function AnyColliderOverlaps(colliders: seq<Box>, box: Box, overlaps: (Box, Box) -> bool): (r: bool)
    ensures r <==> exists c :: 0 <= c < |colliders| && overlaps(colliders[c], box)
  {
    if colliders == [] then false
    else if overlaps(colliders[0], box) then true
    else
      var r := AnyColliderOverlaps(colliders[1..], box, overlaps);
      assert forall c :: 1 <= c < |colliders| ==> colliders[c] == colliders[1..][c - 1];
      r
  }

  /** Whether some collider overlaps some player's box; the outer loop. */
  function AnyPlayerOverlaps(players: seq<Player>, colliders: seq<Box>, overlaps: (Box, Box) -> bool): (r: bool)
    ensures r <==> exists p, c :: 0 <= p < |players| && 0 <= c < |colliders|
                                  && overlaps(colliders[c], PlayerBox(players[p]))
  {
    if players == [] then false
    else if AnyColliderOverlaps(colliders, PlayerBox(players[0]), overlaps) then true
    else
      var r := AnyPlayerOverlaps(players[1..], colliders, overlaps);
      assert forall p :: 1 <= p < |players| ==> players[p] == players[1..][p - 1];
      r
  }

  /**
   * canPlaceBlock: refused when the target block does not allow attachment,
   * when the adjacent position holds a visible block that selection rays do
   * not pass through, or when a non-penetrable block would overlap some
   * player; allowed otherwise.  The target position must hold a block.
   */
  function CanPlaceBlock(blocks: map<Vec3i, Block>, env: Environment, block: Block, target: Vec3i, pos: Vec3i): (r: bool)
    requires target in blocks
    ensures r <==>
      && blocks[target].allowBlockAttachment
      && !(pos in blocks && !blocks[pos].invisible && !blocks[pos].selectionRayThrough)
      && (block.penetrable ||
          forall p, c :: 0 <= p < |env.players| && 0 <= c < |env.colliders(block, pos)|
            ==> !env.overlaps(env.colliders(block, pos)[c], PlayerBox(env.players[p])))
  {
    var center := blocks[target];
    if !center.allowBlockAttachment then false
    else if pos in blocks && !blocks[pos].invisible && !blocks[pos].selectionRayThrough then false
    else if !block.penetrable && AnyPlayerOverlaps(env.players, env.colliders(block, pos), env.overlaps) then false
    else true
  }

  datatype UsageType = NoUsage | OnUser | OnBlock | OnEntity | InDirection

  /** What checkConsumeItem does to an item. */
  datatype Consumption = Kept | Destroyed | Saved(stackCount: int)

  /** The effect of one use on a stack of `stackCount`. */
  function Consume(consumedOnUse: bool, stackCount: int): (c: Consumption)
    ensures c == Kept <==> !consumedOnUse
    ensures c == Destroyed ==> stackCount == 1
    ensures c.Saved? ==> c.stackCount == stackCount - 1 && c.stackCount != 0
  {
    if !consumedOnUse then Kept
    else if stackCount - 1 == 0 then Destroyed
    else Saved(stackCount - 1)
  }

  /**
   * A consumable item is destroyed exactly when its stack was 1; any other
   * stack, including an empty or negative one, is saved one smaller.
   */
  lemma ConsumeCases(consumedOnUse: bool, stackCount: int)
    ensures !consumedOnUse ==> Consume(consumedOnUse, stackCount) == Kept
    ensures consumedOnUse ==> (Consume(consumedOnUse, stackCount) == Destroyed <==> stackCount == 1)
    ensures consumedOnUse && stackCount <= 0 ==> Consume(consumedOnUse, stackCount) == Saved(stackCount - 1)
    ensures consumedOnUse && stackCount <= 0 ==> Consume(consumedOnUse, stackCount).stackCount < 0
  {
  }

  datatype Target = EntityTarget(entity: nat) | BlockEntityTarget(position: Vec3i)

  datatype ActivateEvent =
    | Activate(target: Target, instigator: nat)
    | ActivateInDirection(location: Vec3f, direction: Vec3f, instigator: nat)

  datatype AddedComponent =
    | BlockComponentAdded(position: Vec3i, temporary: bool)
    | HealthComponentAdded(maxHealth: int, regenRate: real, waitBeforeRegen: real)

  class ItemComponent {
    var usage: UsageType
    var consumedOnUse: bool
    var stackCount: int
  }

  class BlockItemComponent {
    var blockFamily: BlockFamily
    var placedEntity: Entity?   // null is EntityRef.NULL
  }

  /** An entity with the components and effects the handlers touch. */
  class Entity {
    var alive: bool                      // exists()
    const item: ItemComponent?           // getComponent(ItemComponent.class)
    const blockItem: BlockItemComponent? // getComponent(BlockItemComponent.class)
    var saved: seq<int>                  // stack counts written by saveComponent
    var received: seq<ActivateEvent>     // events sent to the entity
    var added: seq<AddedComponent>       // components added to the entity
  }

  /** An entity's item component, as a frame. */
  function ItemOf(e: Entity): set<ItemComponent>
  {
    if e.item != null then {e.item} else {}
  }

  /** An entity's block item component, as a frame. */
  function BlockItemOf(e: Entity): set<BlockItemComponent>
  {
    if e.blockItem != null then {e.blockItem} else {}
  }

  /** The placed entity a block item refers to, as a frame. */
  function Placed(blockItem: BlockItemComponent?): set<Entity>
    reads blockItem
  {
    if blockItem != null && blockItem.placedEntity != null then {blockItem.placedEntity} else {}
  }

  /** The stack, liveness and saves of `item` changed as one use prescribes. */
  twostate predicate UsedOnce(item: Entity, comp: ItemComponent)
    reads item, comp
  {
    match Consume(old(comp.consumedOnUse), old(comp.stackCount))
    case Kept =>
      comp.stackCount == old(comp.stackCount) && item.alive == old(item.alive) && item.saved == old(item.saved)
    case Destroyed =>
      comp.stackCount == 0 && !item.alive && item.saved == old(item.saved)
    case Saved(n) =>
      comp.stackCount == n && item.alive == old(item.alive) && item.saved == old(item.saved) + [n]
  }

  /** The stack, liveness and saves of `item` are as they were. */
  twostate predicate NotUsed(item: Entity, comp: ItemComponent)
    reads item, comp
  {
    comp.stackCount == old(comp.stackCount) && item.alive == old(item.alive) && item.saved == old(item.saved)
  }

  datatype UseItemOnBlockEvent = UseItemOnBlockEvent(targetBlock: Vec3i, surfaceDirection: Side, secondaryDirection: Side, instigator: nat)
  datatype UseItemEvent = UseItemEvent(instigator: nat)
  datatype UseItemOnEntityEvent = UseItemOnEntityEvent(target: nat, instigator: nat)
  datatype UseItemInDirectionEvent = UseItemInDirectionEvent(location: Vec3f, direction: Vec3f, instigator: nat)

  class ItemSystem {
    var blocks: map<Vec3i, Block>
    const env: Environment

    constructor (blocks: map<Vec3i, Block>, env: Environment)
      ensures this.blocks == blocks && this.env == env
    {
      this.blocks, this.env := blocks, env;
    }

    /** onDestroyed: destroying a block item destroys the entity of the block it placed. */
    method OnDestroyed(entity: Entity)
      requires entity.blockItem != null
      modifies Placed(entity.blockItem)`alive
      ensures entity.blockItem.placedEntity != null ==> !entity.blockItem.placedEntity.alive
    {
      var placed := entity.blockItem.placedEntity;
      if placed != null {
        placed.alive := false;
      }
    }

    /**
     * checkConsumeItem: a consumable item's stack drops by one; the item is
     * destroyed when that leaves exactly 0 and its component is saved
     * otherwise.  Nothing happens to other items.
     */
    method CheckConsumeItem(item: Entity, itemComp: ItemComponent)
      modifies item`alive, item`saved, itemComp`stackCount
      ensures UsedOnce(item, itemComp)
    {
      if itemComp.consumedOnUse {
        itemComp.stackCount := itemComp.stackCount - 1;
        if itemComp.stackCount == 0 {
          item.alive := false;
        } else {
          item.saved := item.saved + [itemComp.stackCount];
        }
      }
    }

    /**
     * Whether placeBlock places a block: the family provides one for the
     * two faces and canPlaceBlock allows it next to the target.
     */
    static predicate Placeable(blocks: map<Vec3i, Block>, env: Environment, family: BlockFamily,
                               target: Vec3i, surface: Side, secondary: Side): (r: bool)
      requires family.blockFor(surface, secondary).Some? ==> target in blocks
      ensures family.blockFor(surface, secondary).None? ==> !r
      ensures r ==> blocks[target].allowBlockAttachment
    {
      && family.blockFor(surface, secondary).Some?
      && CanPlaceBlock(blocks, env, family.blockFor(surface, secondary).value, target, PlacementPos(target, surface))
    }

    /**
     * placeBlock: the block the family gives for the two faces is placed at
     * the target's neighbour across the surface, when there is one and the
     * placement checks allow it.  On success the placed-entity reference,
     * if it exists, receives the block and health components and is
     * cleared.  Returns whether a block was placed.
     */
    method PlaceBlock(family: BlockFamily, target: Vec3i, surface: Side, secondary: Side, blockItem: BlockItemComponent)
      returns (placed: bool)
      requires family.blockFor(surface, secondary).Some? ==> target in blocks
      modifies this`blocks, blockItem`placedEntity, Placed(blockItem)`added
      ensures placed <==> Placeable(old(blocks), env, family, target, surface, secondary)
      ensures !placed ==> blocks == old(blocks) && blockItem.placedEntity == old(blockItem.placedEntity)
      ensures placed ==> blocks == old(blocks)[PlacementPos(target, surface) := family.blockFor(surface, secondary).value]
      ensures placed && old(blockItem.placedEntity) != null && old(blockItem.placedEntity.alive) ==>
        && blockItem.placedEntity == null
        && old(blockItem.placedEntity).added == old(blockItem.placedEntity.added) + [
             BlockComponentAdded(PlacementPos(target, surface), false),
             HealthComponentAdded(family.archetype.hardness, 2.0, 1.0)]
      ensures !(placed && old(blockItem.placedEntity) != null && old(blockItem.placedEntity.alive)) ==>
        blockItem.placedEntity == old(blockItem.placedEntity)
        && (blockItem.placedEntity != null ==> blockItem.placedEntity.added == old(blockItem.placedEntity.added))
    {
      var placementPos := Add(target, SideVector(surface));
      var block := family.blockFor(surface, secondary);
      if block.None? {
        return false;
      }
      if CanPlaceBlock(blocks, env, block.value, target, placementPos) {
        blocks := blocks[placementPos := block.value];
        // AudioManager.play: left out
        var e := blockItem.placedEntity;
        if e != null && e.alive {
          e.added := e.added + [BlockComponentAdded(placementPos, false)];
          e.added := e.added + [HealthComponentAdded(family.archetype.hardness, 2.0, 1.0)];
          blockItem.placedEntity := null;
        }
        return true;
      }
      return false;
    }

    /**
     * useItemOnBlock: only for an item used on blocks.  A block item is
     * consumed when its block was placed, with placeBlock's effects on the
     * world and the placed entity; any other item activates the block
     * entity at the target and is consumed.  The target must hold a block
     * when a block item's family gives a block for the two faces, since
     * placement then inspects it.
     */
    method UseItemOnBlock(event: UseItemOnBlockEvent, item: Entity)
      requires item.item != null && item.item.usage == OnBlock && item.blockItem != null
        && item.blockItem.blockFamily.blockFor(event.surfaceDirection, event.secondaryDirection).Some?
        ==> event.targetBlock in blocks
      modifies this`blocks, item`alive, item`saved, item`received, ItemOf(item)`stackCount, BlockItemOf(item)`placedEntity, Placed(item.blockItem)`added
      ensures item.item == null ==> item.alive == old(item.alive) && item.saved == old(item.saved)
      ensures item.item == null || old(item.item.usage) != OnBlock ==>
        && blocks == old(blocks) && item.received == old(item.received)
        && (item.item != null ==> NotUsed(item, item.item))
        && (item.blockItem != null ==> item.blockItem.placedEntity == old(item.blockItem.placedEntity))
        && (item.blockItem != null && item.blockItem.placedEntity != null ==>
              item.blockItem.placedEntity.added == old(item.blockItem.placedEntity.added))
      ensures item.item != null && old(item.item.usage) == OnBlock && item.blockItem != null ==>
        && item.received == old(item.received)
        && var family, surface := item.blockItem.blockFamily, event.surfaceDirection;
           var placeable := Placeable(old(blocks), env, family, event.targetBlock, surface, event.secondaryDirection);
           var placedBefore := old(item.blockItem.placedEntity);
           && (placeable ==> UsedOnce(item, item.item))
           && (!placeable ==> NotUsed(item, item.item) && blocks == old(blocks))
           && (placeable ==> blocks == old(blocks)[PlacementPos(event.targetBlock, surface) :=
                                                    family.blockFor(surface, event.secondaryDirection).value])
           && (placeable && placedBefore != null && old(placedBefore.alive) ==>
                 && item.blockItem.placedEntity == null
                 && placedBefore.added == old(placedBefore.added) + [
                      BlockComponentAdded(PlacementPos(event.targetBlock, surface), false),
                      HealthComponentAdded(family.archetype.hardness, 2.0, 1.0)])
           && (!(placeable && placedBefore != null && old(placedBefore.alive)) ==>
                 && item.blockItem.placedEntity == placedBefore
                 && (placedBefore != null ==> placedBefore.added == old(placedBefore.added)))
      ensures item.item != null && old(item.item.usage) == OnBlock && item.blockItem == null ==>
        && blocks == old(blocks)
        && item.received == old(item.received) + [Activate(BlockEntityTarget(event.targetBlock), event.instigator)]
        && UsedOnce(item, item.item)
    {
      var itemComp := item.item;
      if itemComp == null || itemComp.usage != OnBlock {
        return;
      }
      var blockItem := item.blockItem;
      if blockItem != null {
        var placed := PlaceBlock(blockItem.blockFamily, event.targetBlock, event.surfaceDirection,
                                 event.secondaryDirection, blockItem);
        if placed {
          CheckConsumeItem(item, itemComp);
        }
      } else {
        item.received := item.received + [Activate(BlockEntityTarget(event.targetBlock), event.instigator)];
        CheckConsumeItem(item, itemComp);
      }
    }

    /** useItem: only for an item used on its user, who is both target and instigator. */
    method UseItem(event: UseItemEvent, item: Entity)
      modifies item`alive, item`saved, item`received, ItemOf(item)`stackCount
      ensures item.item == null ==> item.alive == old(item.alive) && item.saved == old(item.saved)
      ensures item.item == null || old(item.item.usage) != OnUser ==>
        item.received == old(item.received) && (item.item != null ==> NotUsed(item, item.item))
      ensures item.item != null && old(item.item.usage) == OnUser ==>
        && item.received == old(item.received) + [Activate(EntityTarget(event.instigator), event.instigator)]
        && UsedOnce(item, item.item)
    {
      var itemComp := item.item;
      if itemComp == null || itemComp.usage != OnUser {
        return;
      }
      item.received := item.received + [Activate(EntityTarget(event.instigator), event.instigator)];
      CheckConsumeItem(item, itemComp);
    }

    /** useItemOnEntity: any item activates the target entity and is consumed. */
    method UseItemOnEntity(event: UseItemOnEntityEvent, item: Entity)
      modifies item`alive, item`saved, item`received, ItemOf(item)`stackCount
      ensures item.item == null ==>
        item.received == old(item.received) && item.alive == old(item.alive) && item.saved == old(item.saved)
      ensures item.item != null ==>
        && item.received == old(item.received) + [Activate(EntityTarget(event.target), event.instigator)]
        && UsedOnce(item, item.item)
    {
      var itemComp := item.item;
      if itemComp == null {
        return;
      }
      item.received := item.received + [Activate(EntityTarget(event.target), event.instigator)];
      CheckConsumeItem(item, itemComp);
    }

    /** useItemInDirection: any item is activated along the direction and consumed. */
    method UseItemInDirection(event: UseItemInDirectionEvent, item: Entity)
      modifies item`alive, item`saved, item`received, ItemOf(item)`stackCount
      ensures item.item == null ==>
        item.received == old(item.received) && item.alive == old(item.alive) && item.saved == old(item.saved)
      ensures item.item != null ==>
        && item.received == old(item.received) + [ActivateInDirection(event.location, event.direction, event.instigator)]
        && UsedOnce(item, item.item)
    {
      var itemComp := item.item;
      if itemComp == null {
        return;
      }
      item.received := item.received + [ActivateInDirection(event.location, event.direction, event.instigator)];
      CheckConsumeItem(item, itemComp);
    }
  }
}
