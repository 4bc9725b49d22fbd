/** The platforming game mode's choice of where the player spawns: the first
    actor carrying the spawn tag that the game instance remembers across
    level loads, or else the engine's default player-start choice. */
module GameMode {
  import opened Engine

  /** An engine name. The empty name and "None" are the null name; names
      compare without regard to ASCII letter case. */
  datatype Name = Name(text: string)

  function FoldChar(c: char): char {
    if 'A' <= c <= 'Z' then (c as int + 32) as char else c
  }

  function Fold(s: string): (r: string)
    ensures |r| == |s|
    ensures forall i :: 0 <= i < |s| ==> r[i] == FoldChar(s[i])
  {
    seq(|s|, i requires 0 <= i < |s| => FoldChar(s[i]))
  }

  predicate SameName(a: Name, b: Name) {
    Fold(a.text) == Fold(b.text)
  }

  predicate IsNone(n: Name) {
    n.text == "" || Fold(n.text) == "none"
  }

  /** An actor of the level, with the tags it carries. */
  datatype Actor = Actor(id: nat, tags: seq<Name>)

  /** Whether the actor carries the tag; the null name is carried by none. */
  predicate HasTag(a: Actor, tag: Name) {
    !IsNone(tag) && exists i :: 0 <= i < |a.tags| && SameName(a.tags[i], tag)
  }

  /** The game instance that outlives level loads: the tag of the spawn
      point to use next, and the 2D flag (not read here). */
  datatype JamGameInstance = JamGameInstance(targetSpawnTag: Name, isCharacter2D: bool)

  /** world[i] is the first actor, in iteration order, carrying the tag. */
  predicate FirstTagged(world: seq<Actor>, tag: Name, i: int) {
    0 <= i < |world| && HasTag(world[i], tag) && forall j :: 0 <= j < i ==> !HasTag(world[j], tag)
  }

  /** The actors of the world, in iteration order, that carry the tag: each
      of them and only them, the first of them leading. */
  function ActorsWithTag(world: seq<Actor>, tag: Name): (found: seq<Actor>)
    ensures |found| <= |world|
    ensures forall a :: a in found <==> a in world && HasTag(a, tag)
    ensures found != [] ==> exists i :: FirstTagged(world, tag, i) && found[0] == world[i]
    decreases |world|
  {
    if world == [] then []
    else
      var rest := ActorsWithTag(world[1..], tag);
      assert forall a :: a in world <==> a == world[0] || a in world[1..] by {
        assert world == [world[0]] + world[1..];
      }
      if HasTag(world[0], tag) then
        assert FirstTagged(world, tag, 0);
        [world[0]] + rest
      else
        assert rest != [] ==> exists i :: FirstTagged(world, tag, i) && rest[0] == world[i] by {
          if rest != [] {
            var k :| FirstTagged(world[1..], tag, k) && rest[0] == world[1..][k];
            assert FirstTagged(world, tag, k + 1) by {
              forall j | 0 <= j < k + 1 ensures !HasTag(world[j], tag) {
                if j > 0 {
                  assert world[j] == world[1..][j - 1];
                }
              }
            }
          }
        }
        rest
  }

  /** Super's choice (the default player start) or a tagged actor. */
  datatype SpawnChoice = TaggedSpawn(actor: Actor) | DefaultSpawn

  /** ChoosePlayerStart. `gi` is the game instance when it is the jam's own
      kind, `world` the level's actors in iteration order. A tagged actor is
      chosen exactly when the remembered tag is set and some actor carries
      it, and then it is the first one; otherwise the default choice. The
      game instance is only read. */
  function ChoosePlayerStart(gi: Option<JamGameInstance>, world: seq<Actor>): (r: SpawnChoice)
    ensures gi.None? || IsNone(gi.value.targetSpawnTag) ==> r == DefaultSpawn
    ensures r.TaggedSpawn? <==> gi.Some? && exists a :: a in world && HasTag(a, gi.value.targetSpawnTag)
    ensures r.TaggedSpawn? ==>
      exists i :: FirstTagged(world, gi.value.targetSpawnTag, i) && r.actor == world[i]
    ensures r.TaggedSpawn? ==> HasTag(r.actor, gi.value.targetSpawnTag)
  {
    if gi.Some? && !IsNone(gi.value.targetSpawnTag) then
      var found := ActorsWithTag(world, gi.value.targetSpawnTag);
      if |found| > 0 then
        assert found[0] in found;
        TaggedSpawn(found[0])
      else
        DefaultSpawn
    else
      DefaultSpawn
  }
}
