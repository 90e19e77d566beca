/** The room-object catalog: the interactive fixtures that can hold the
    level's question or hide its key, and three decorative ones. */
module RoomCatalog {
  import opened Wrappers
  import opened Seqs

  /** A world-space position. */
  datatype Vec3 = Vec3(x: real, y: real, z: real)

  /** One catalog entry; `keyWorldPosition` is the optional field. */
  datatype RoomObjectDef = RoomObjectDef(
    id: string,
    name: string,
    position: Vec3,
    canHoldQuestions: bool,
    canHideKey: bool,
    questionHint: string,
    keyHint: string,
    keyWorldPosition: Option<Vec3>)

  const RoomObjects: seq<RoomObjectDef> := [
    RoomObjectDef("desk", "Desk", Vec3(3.5, -1.8, -4.3), true, true,
      "There are papers scattered on this desk...",
      "The drawer feels jammed. Something is inside...",
      Some(Vec3(3.5, -1.5, -3.6))),
    RoomObjectDef("bookshelf", "Bookshelf", Vec3(-4.8, -0.5, -2.0), true, true,
      "One of these books looks out of place...",
      "A book is sticking out slightly...",
      Some(Vec3(-4.3, -0.2, -2.0))),
    RoomObjectDef("painting", "Painting", Vec3(-4.95, 0.5, 2.0), true, true,
      "The frame has strange markings...",
      "The painting is slightly loose on one side...",
      Some(Vec3(-4.5, 0.2, 2.0))),
    RoomObjectDef("cabinet", "Cabinet", Vec3(4.6, -1.2, -2.0), true, true,
      "There is a note taped inside the glass...",
      "The cabinet door won't close all the way...",
      Some(Vec3(4.0, -1.5, -2.0))),
    RoomObjectDef("chest", "Chest", Vec3(-3.5, -2.2, -4.0), true, true,
      "Something is engraved on the lid...",
      "The chest rattles when moved...",
      Some(Vec3(-3.5, -1.8, -4.0))),
    RoomObjectDef("clock", "Wall Clock", Vec3(0.0, 1.5, -4.9), true, false,
      "The clock face has symbols instead of numbers...",
      "",
      None),
    RoomObjectDef("crate", "Crate", Vec3(3.5, -2.2, 3.0), false, true,
      "",
      "The crate lid is slightly ajar...",
      Some(Vec3(3.5, -1.8, 3.0))),
    RoomObjectDef("barrel", "Barrel", Vec3(-4.0, -1.6, 3.5), false, true,
      "",
      "Something is hidden beneath the barrel...",
      Some(Vec3(-4.0, -2.3, 3.8))),
    RoomObjectDef("table", "Table", Vec3(2.0, -1.8, 0.0), false, false,
      "",
      "",
      None),
    RoomObjectDef("chair", "Chair", Vec3(0.5, -2.0, 0.5), false, false,
      "",
      "",
      None),
    RoomObjectDef("stool", "Stool", Vec3(-2.0, -2.1, 2.0), false, false,
      "",
      "",
      None)
  ]

  /** The filter predicate `o => o.canHoldQuestions`. */
  function HoldsQuestions(): RoomObjectDef -> bool {
    (o: RoomObjectDef) => o.canHoldQuestions
  }

  /** The capability `o => o.canHideKey`. */
  function CanHideKey(): RoomObjectDef -> bool {
    (o: RoomObjectDef) => o.canHideKey
  }

  /** The filter predicate `o => o.canHideKey && o.id !== excluded`. */
  function HidesKeyExcept(excluded: string): RoomObjectDef -> bool {
    (o: RoomObjectDef) => CanHideKey()(o) && o.id != excluded
  }

  /** No two objects share an id. */
  lemma IdsDistinct()
    ensures forall i, j :: 0 <= i < j < |RoomObjects| ==> RoomObjects[i].id != RoomObjects[j].id
  {
  }

  /** Every object that can hide the key says where the key appears. */
  lemma HidersHaveKeyPosition()
    ensures forall o :: o in RoomObjects && o.canHideKey ==> o.keyWorldPosition.Some?
  {
  }

  /** Every object that can hold the question comes with its hint text. */
  lemma QuestionHintsPresent()
    ensures forall o :: o in RoomObjects && o.canHoldQuestions ==> o.questionHint != []
  {
  }

  /** Every object that can hide the key comes with its hint text. */
  lemma KeyHintsPresent()
    ensures forall o :: o in RoomObjects && o.canHideKey ==> o.keyHint != []
  {
  }

  /** The table, the chair and the stool are decorative: they take no role. */
  lemma DecorationsTakeNoRole()
    ensures forall o :: o in RoomObjects && o.id in {"table", "chair", "stool"} ==>
      !o.canHoldQuestions && !o.canHideKey
  {
  }

  /** Six objects can hold the question. */
  lemma HolderCount()
    ensures |Filter(RoomObjects, HoldsQuestions())| == 6
  {
  }

  /** Seven objects can hide the key. */
  lemma HiderCount()
    ensures |Filter(RoomObjects, CanHideKey())| == 7
  {
  }

  /** Whichever object holds the question, another one can hide the key. */
  lemma EveryHolderLeavesAHider(holder: RoomObjectDef)
    requires holder in RoomObjects && holder.canHoldQuestions
    ensures exists o :: o in RoomObjects && HidesKeyExcept(holder.id)(o)
  {
    var crate := RoomObjects[6];
    assert crate.id == "crate" && crate.canHideKey && !crate.canHoldQuestions;
    assert holder.id != "crate";
    assert CanHideKey()(crate);
    assert HidesKeyExcept(holder.id)(crate);
  }
}
