/** The table of game object kinds (gameengine/celldefs.py): constant attributes
    per kind, the character map, and the fields a new cell or object starts with.
    The Python class hierarchy (Cell, Object, Building, Unit) is flattened into
    one datatype of kinds; an attribute a class inherits is given for each kind. */
module CellDefs {

  datatype ObjType = Castle | Farm | Barracks | Warrior | Wall

  datatype Option<T> = None | Some(value: T)

  /** Subclasses of `Building`; the only `Unit` is Warrior. */
  predicate IsBuilding(k: ObjType) {
    k != Warrior
  }

  function TakesDamage(k: ObjType): bool {
    k != Wall                       // Object: True, overridden by Wall
  }

  function VisionRange(k: ObjType): nat {
    3                               // Object, never overridden
  }

  function CanBeBuilt(k: ObjType): bool {
    match k
    case Castle => false
    case Wall => false
    case _ => true                  // inherited from Object
  }

  function CanMove(k: ObjType): bool {
    match k
    case Warrior => true            // Unit
    case _ => false                 // Building, and Wall's own override
  }

  function CanAttack(k: ObjType): bool {
    match k
    case Warrior => true
    case _ => false
  }

  /** `MaxHitpoints`; Wall defines none. */
  function MaxHitpoints(k: ObjType): Option<nat> {
    match k
    case Castle => Some(10000)
    case Farm => Some(1000)
    case Barracks => Some(1500)
    case Warrior => Some(500)
    case Wall => None
  }

  /** `Cost`; Castle and Wall define none. */
  function Cost(k: ObjType): Option<nat> {
    match k
    case Farm => Some(1000)
    case Barracks => Some(1500)
    case Warrior => Some(500)
    case _ => None
  }

  /** Warrior's combat attributes; the other kinds define none. */
  function DamageToBuilding(k: ObjType): Option<nat> {
    if k == Warrior then Some(100) else None
  }

  function DamageToUnits(k: ObjType): Option<nat> {
    if k == Warrior then Some(100) else None
  }

  function AttackRange(k: ObjType): Option<nat> {
    if k == Warrior then Some(2) else None
  }

  function CharRepr(k: ObjType): char {
    match k
    case Castle => 'C'
    case Farm => 'F'
    case Barracks => 'B'
    case Warrior => 'W'
    case Wall => '#'
  }

  /** `ObjTypes` (gameengine/celldefs.py:60). */
  const ObjTypes: seq<ObjType> := [Castle, Farm, Barracks, Warrior, Wall]

  /** The dictionary `{t.CharRepr: t for t in types}`: entries are inserted in
      order, a later kind overwriting an earlier one with the same character. */
  function ReprDict(types: seq<ObjType>): (d: map<char, ObjType>)
    ensures forall k :: k in types ==> CharRepr(k) in d
    ensures forall c :: c in d ==> d[c] in types && CharRepr(d[c]) == c
  {
    if types == [] then map[]
    else
      var last := types[|types| - 1];
      ReprDict(types[..|types| - 1])[CharRepr(last) := last]
  }

  /** `ObjTypeDict` (gameengine/celldefs.py:61). */
  const ObjTypeDict: map<char, ObjType> := ReprDict(ObjTypes)

  /** A board position. The constructors only initialise the movement fields
      (`moveCandidates`, `newPosition`); the engine code that fills them is not
      part of this model, so this pair of integers is a stand-in for their
      element type. */
  datatype Position = Position(x: int, y: int)

  /** A cell, and the fields an object adds to it. `hitpoints` and `owner` are
      None where the constructor does not set them. */
  datatype Cell =
    | Empty(moveCandidates: seq<Position>)
    | Object(kind: ObjType, moveCandidates: seq<Position>, hitpoints: Option<int>,
             newPosition: Option<Position>, willMove: Option<bool>,
             hasSpawnRequest: bool, owner: Option<int>)

  /** `Cell()` (gameengine/celldefs.py:4-5). */
  function NewCell(): (c: Cell)
    ensures c.Empty? && c.moveCandidates == []
  {
    Empty([])
  }

  /** The object a kind's constructor builds (gameengine/celldefs.py:11-17, 55-57). */
  function NewObject(k: ObjType): (o: Cell)
    ensures o.Object? && o.kind == k && o.moveCandidates == []
    ensures o.newPosition == None && o.willMove == None && !o.hasSpawnRequest
    ensures o.hitpoints.Some? <==> TakesDamage(k)
    ensures TakesDamage(k) ==> MaxHitpoints(k).Some? && o.hitpoints == Some(MaxHitpoints(k).value)
    ensures o.owner == (if k == Wall then Some(-1) else None)
  {
    Object(k, [], if TakesDamage(k) then Some(MaxHitpoints(k).value) else None,
           None, None, false, if k == Wall then Some(-1) else None)
  }
  /** `ObjTypes` lists every kind exactly once. */
  lemma ObjTypesEnumeratesKinds()
    ensures forall k: ObjType :: k in ObjTypes
    ensures forall i, j :: 0 <= i < j < |ObjTypes| ==> ObjTypes[i] != ObjTypes[j]
  {
    forall k: ObjType ensures k in ObjTypes {
      match k
      case Castle => assert ObjTypes[0] == k;
      case Farm => assert ObjTypes[1] == k;
      case Barracks => assert ObjTypes[2] == k;
      case Warrior => assert ObjTypes[3] == k;
      case Wall => assert ObjTypes[4] == k;
    }
  }

  /** The character representations are pairwise distinct. */
  lemma CharReprInjective(a: ObjType, b: ObjType)
    ensures CharRepr(a) == CharRepr(b) ==> a == b
  {
  }

  /** Each kind's character is a key of `ObjTypeDict` that maps back to the kind. */
  lemma ObjTypeDictAt(k: ObjType)
    ensures CharRepr(k) in ObjTypeDict && ObjTypeDict[CharRepr(k)] == k
  {
    ObjTypesEnumeratesKinds();
    CharReprInjective(k, ObjTypeDict[CharRepr(k)]);
  }

  /** `ObjTypeDict` maps each kind's character back to that kind, has no other
      keys, and so is a bijection between the five characters and the five kinds
      (gameengine/celldefs.py:26, 31, 36, 47, 58, 60-61). */
  lemma ObjTypeDictRoundTrip()
    ensures ObjTypeDict.Keys == {'C', 'F', 'B', 'W', '#'}
    ensures forall k: ObjType :: CharRepr(k) in ObjTypeDict && ObjTypeDict[CharRepr(k)] == k
    ensures forall c :: c in ObjTypeDict ==> CharRepr(ObjTypeDict[c]) == c
  {
    forall k: ObjType ensures CharRepr(k) in ObjTypeDict && ObjTypeDict[CharRepr(k)] == k {
      ObjTypeDictAt(k);
    }
    forall c | c in ObjTypeDict ensures c in {'C', 'F', 'B', 'W', '#'} {
      assert CharRepr(ObjTypeDict[c]) == c;
    }
    ObjTypeDictAt(Castle);
    ObjTypeDictAt(Farm);
    ObjTypeDictAt(Barracks);
    ObjTypeDictAt(Warrior);
    ObjTypeDictAt(Wall);
  }

  /** Buildings can neither move nor attack; the one unit, Warrior, can do both
      (gameengine/celldefs.py:19-21, 38-40, 50-54). */
  lemma OnlyUnitsMoveAndAttack(k: ObjType)
    ensures IsBuilding(k) ==> !CanMove(k) && !CanAttack(k)
    ensures !IsBuilding(k) ==> CanMove(k) && CanAttack(k)
  {
  }

  /** Castle and Wall cannot be built; the other kinds can, and each of those has
      a cost (gameengine/celldefs.py:10, 25, 30, 35, 46, 52). */
  lemma BuildableKindsHaveCosts(k: ObjType)
    ensures CanBeBuilt(k) <==> k in {Farm, Barracks, Warrior}
    ensures CanBeBuilt(k) <==> Cost(k).Some?
    ensures Cost(Farm) == Some(1000) && Cost(Barracks) == Some(1500) && Cost(Warrior) == Some(500)
    ensures VisionRange(k) == 3
  {
  }

  /** Exactly the kinds that can attack define the combat attributes: the Warrior
      deals 100 damage to buildings and to units at range 2
      (gameengine/celldefs.py:21, 40, 44-48, 53). */
  lemma AttackersHaveCombatAttributes(k: ObjType)
    ensures CanAttack(k) <==> DamageToBuilding(k).Some? && DamageToUnits(k).Some? && AttackRange(k).Some?
    ensures CanAttack(k) ==>
              DamageToBuilding(k) == Some(100) && DamageToUnits(k) == Some(100) && AttackRange(k) == Some(2)
  {
  }

  /** Exactly the kinds that take damage define a hitpoint maximum, so the
      constructor's read of `MaxHitpoints` always finds one
      (gameengine/celldefs.py:8, 13-14, 24, 29, 34, 43, 51). */
  lemma DamageableKindsHaveMaxHitpoints(k: ObjType)
    ensures TakesDamage(k) <==> MaxHitpoints(k).Some?
    ensures TakesDamage(k) <==> k != Wall
  {
  }

  /** A new object that takes damage starts at full hitpoints; a new Wall has no
      hitpoints and belongs to nobody (gameengine/celldefs.py:13-14, 24, 29, 34,
      43, 51, 55-57). */
  lemma NewObjectHitpoints()
    ensures NewObject(Castle).hitpoints == Some(10000)
    ensures NewObject(Farm).hitpoints == Some(1000)
    ensures NewObject(Barracks).hitpoints == Some(1500)
    ensures NewObject(Warrior).hitpoints == Some(500)
    ensures NewObject(Wall).hitpoints == None && NewObject(Wall).owner == Some(-1)
  {
  }
}
