/** Exit doors (platforms.cpp, class Doors): a level is complete when the
    water player stands at a "water" door and the fire player at a "fire"
    door.  Whether a box touches a door is the door's own collision test,
    which this model takes as the parameter `touches`. */
module Exits {
  import opened Geometry

  datatype Door = Door(position: Vec2, playerType: string)

  /** Some door of the given type touches the box. */
  predicate AtDoor(doors: seq<Door>, playerType: string, pos: Vec2, size: Vec2,
                   touches: (Door, Vec2, Vec2) -> bool)
  {
    exists i :: 0 <= i < |doors| && doors[i].playerType == playerType && touches(doors[i], pos, size)
  }

  class Doors {
    var doors: seq<Door>

    constructor (ds: seq<Door>)
      ensures doors == ds
    {
      doors := ds;
    }

    /** Both players stand at a door of their own kind. */
    method CheckBothPlayersAtDoors(waterPos: Vec2, waterSize: Vec2, firePos: Vec2, fireSize: Vec2,
                                   touches: (Door, Vec2, Vec2) -> bool)
      returns (both: bool)
      ensures both <==> (AtDoor(doors, "water", waterPos, waterSize, touches)
                         && AtDoor(doors, "fire", firePos, fireSize, touches))
    {
      var waterAtDoor := false;
      var fireAtDoor := false;
      var i := 0;
      while i < |doors|
        invariant 0 <= i <= |doors|
        invariant waterAtDoor <==> AtDoor(doors[..i], "water", waterPos, waterSize, touches)
        invariant fireAtDoor <==> AtDoor(doors[..i], "fire", firePos, fireSize, touches)
      {
        var door := doors[i];
        assert doors[..i + 1] == doors[..i] + [door];
        if door.playerType == "water" && touches(door, waterPos, waterSize) {
          waterAtDoor := true;
        } else if door.playerType == "fire" && touches(door, firePos, fireSize) {
          fireAtDoor := true;
        }
        AtDoorSnoc(doors[..i], door, "water", waterPos, waterSize, touches);
        AtDoorSnoc(doors[..i], door, "fire", firePos, fireSize, touches);
        i := i + 1;
      }
      assert doors[..i] == doors;
      both := waterAtDoor && fireAtDoor;
    }

    /** Some door of the player's type touches the player's box. */
    method IsPlayerAtDoor(playerPos: Vec2, playerSize: Vec2, playerType: string,
                          touches: (Door, Vec2, Vec2) -> bool)
      returns (found: bool)
      ensures found <==> AtDoor(doors, playerType, playerPos, playerSize, touches)
    {
      var i := 0;
      while i < |doors|
        invariant 0 <= i <= |doors|
        invariant !AtDoor(doors[..i], playerType, playerPos, playerSize, touches)
      {
        var door := doors[i];
        if door.playerType == playerType && touches(door, playerPos, playerSize) {
          return true;
        }
        AtDoorSnoc(doors[..i], door, playerType, playerPos, playerSize, touches);
        assert doors[..i + 1] == doors[..i] + [door];
        i := i + 1;
      }
      assert doors[..i] == doors;
      return false;
    }
  }

  /** Looking at one more door adds exactly that door's own answer. */
  lemma AtDoorSnoc(doors: seq<Door>, d: Door, playerType: string, pos: Vec2, size: Vec2,
                   touches: (Door, Vec2, Vec2) -> bool)
    ensures AtDoor(doors + [d], playerType, pos, size, touches) <==>
      AtDoor(doors, playerType, pos, size, touches) || (d.playerType == playerType && touches(d, pos, size))
  {
    if AtDoor(doors + [d], playerType, pos, size, touches) {
      var i :| 0 <= i < |doors + [d]| && (doors + [d])[i].playerType == playerType && touches((doors + [d])[i], pos, size);
      if i < |doors| {
        assert doors[i] == (doors + [d])[i];
      }
    }
    if AtDoor(doors, playerType, pos, size, touches) {
      var i :| 0 <= i < |doors| && doors[i].playerType == playerType && touches(doors[i], pos, size);
      assert (doors + [d])[i] == doors[i];
    }
    if d.playerType == playerType && touches(d, pos, size) {
      assert (doors + [d])[|doors|] == d;
    }
  }
}
