/**
 The position message of a player: what the relay decodes, what it broadcasts, and the attributes
 it keeps of the user.
 */
module Positions {
  import opened Wrappers
  import opened HashStore
  import opened RoomNames
  import opened Decimals

  /** A decoded, valid position message. */
  datatype Message = Message(
    x: nat, y: nat, flags: nat, characterName: Option<string>,
    z: Option<int>, mapId: Option<nat>, mountId: Option<nat>,
    professionId: Option<nat>, raceId: Option<nat>, specializationId: Option<nat>)

  predicate Named(m: Message) {
    m.characterName.Some? && m.characterName.value != ""
  }

  // ---- Broadcast positions ----

  /** The optional fields of a message, and the short names they travel under. */
  datatype OptionalField =
    | OptionalZ | OptionalMap | OptionalMount | OptionalProfession | OptionalRace | OptionalSpecialization
  datatype ShortName = ShortZ | ShortM | ShortN | ShortP | ShortR | ShortS

  const OPTIONAL_FIELDS: seq<(OptionalField, ShortName)> :=
    [(OptionalZ, ShortZ), (OptionalMap, ShortM), (OptionalMount, ShortN),
     (OptionalProfession, ShortP), (OptionalRace, ShortR), (OptionalSpecialization, ShortS)]

  datatype Position = Position(
    channel: string, name: string, x: nat, y: nat, flags: nat, extras: map<ShortName, int>)

  function Widened(v: Option<nat>): Option<int> {
    if v.Some? then Some(v.value) else None
  }

  function Carried(m: Message, field: OptionalField): Option<int> {
    match field
    case OptionalZ => m.z
    case OptionalMap => Widened(m.mapId)
    case OptionalMount => Widened(m.mountId)
    case OptionalProfession => Widened(m.professionId)
    case OptionalRace => Widened(m.raceId)
    case OptionalSpecialization => Widened(m.specializationId)
  }

  function FieldOf(short: ShortName): OptionalField {
    match short
    case ShortZ => OptionalZ
    case ShortM => OptionalMap
    case ShortN => OptionalMount
    case ShortP => OptionalProfession
    case ShortR => OptionalRace
    case ShortS => OptionalSpecialization
  }

  /** The position that the relay broadcasts for a message under a name. */
  function PositionOf(m: Message, name: string): Position {
    Position(RelayChannel(m.x, m.y), name, m.x, m.y, m.flags,
             map short: ShortName | Carried(m, FieldOf(short)).Some? :: Carried(m, FieldOf(short)).value)
  }

  /** The value under a short name, if there is one. */
  function ExtraAt(p: Position, short: ShortName): Option<int> {
    if short in p.extras then Some(p.extras[short]) else None
  }

  /** Field by field: the grid room of the message, the given name, and each number under its own name. */
  predicate Carries(p: Position, m: Message, name: string) {
    && p.channel == "500_" + Decimal(m.x / 500) + "_" + Decimal(m.y / 500)
    && p.name == name && p.x == m.x && p.y == m.y && p.flags == m.flags
    && ExtraAt(p, ShortZ) == m.z
    && ExtraAt(p, ShortM) == Widened(m.mapId)
    && ExtraAt(p, ShortN) == Widened(m.mountId)
    && ExtraAt(p, ShortP) == Widened(m.professionId)
    && ExtraAt(p, ShortR) == Widened(m.raceId)
    && ExtraAt(p, ShortS) == Widened(m.specializationId)
  }

  lemma PositionCarries(m: Message, name: string)
    ensures Carries(PositionOf(m, name), m, name)
  {
    RelayChannelText(m.x, m.y);
    hide RelayChannel, Decimal;
  }

  /** Copies the fields a message carries, one after the other. */
  method BuildPosition(m: Message, name: string) returns (position: Position)
    ensures position == PositionOf(m, name)
    ensures Carries(position, m, name)
  {
    position := Position(RelayChannel(m.x, m.y), name, m.x, m.y, m.flags, map[]);
    for i := 0 to |OPTIONAL_FIELDS|
      invariant position.(extras := map[]) == Position(RelayChannel(m.x, m.y), name, m.x, m.y, m.flags, map[])
      invariant forall k | 0 <= k < i ::
                  var (field, short) := OPTIONAL_FIELDS[k];
                  if Carried(m, field).Some?
                  then short in position.extras && position.extras[short] == Carried(m, field).value
                  else short !in position.extras
      invariant forall k | i <= k < |OPTIONAL_FIELDS| :: OPTIONAL_FIELDS[k].1 !in position.extras
    {
      var (field, short) := OPTIONAL_FIELDS[i];
      var value := Carried(m, field);
      if value.Some? {
        position := position.(extras := position.extras[short := value.value]);
      }
    }
    forall short: ShortName
      ensures exists k | 0 <= k < |OPTIONAL_FIELDS| :: OPTIONAL_FIELDS[k] == (FieldOf(short), short)
    {
      var k :=
        match short
        case ShortZ => 0 case ShortM => 1 case ShortN => 2 case ShortP => 3 case ShortR => 4 case ShortS => 5;
      assert OPTIONAL_FIELDS[k] == (FieldOf(short), short);
    }
    assert position.extras == PositionOf(m, name).extras;
    PositionCarries(m, name);
  }

  // ---- User attributes ----

  /** Zero stands for an absent number. */
  function OrZero(v: Option<int>): int {
    if v.Some? then v.value else 0
  }

  function Bit(mask: nat, bit: nat): int
    requires bit > 0
  {
    mask / bit % 2
  }

  const USER_FIELDS := {Field.X, Field.Y, Field.Z, InCombat, Commander, MapId, MountId, ProfessionId, RaceId,
                        SpecializationId, LastUpdated, Connection}

  function UserRow(x: nat, y: nat, z: int, flags: nat, mapId: int, mount: int, profession: int, race: int,
                   specialization: int, key: string, now: int): (f: map<Field, Value>)
    ensures f.Keys == USER_FIELDS
  {
    map[Field.X := Num(x), Field.Y := Num(y), Field.Z := Num(z),
        InCombat := Num(Bit(flags, 1)), Commander := Num(Bit(flags, 2)),
        MapId := if mapId == 0 then Text("") else Num(mapId), MountId := Num(mount),
        ProfessionId := Num(profession), RaceId := Num(race), SpecializationId := Num(specialization),
        LastUpdated := Text(Decimal(now)), Connection := Text(key)]
  }

  /** The attributes that a message puts into the user's hash. */
  function UserFields(m: Message, key: string, now: int): (f: map<Field, Value>)
    ensures f.Keys == USER_FIELDS
  {
    UserRow(m.x, m.y, OrZero(m.z), m.flags, OrZero(m.mapId), OrZero(m.mountId), OrZero(m.professionId),
            OrZero(m.raceId), OrZero(m.specializationId), key, now)
  }

  function Extra(p: Position, short: ShortName): int {
    if short in p.extras then p.extras[short] else 0
  }

  /** The attributes as the relay reads them off the position it has broadcast. */
  function Attributes(p: Position, key: string, now: int): map<Field, Value> {
    UserRow(p.x, p.y, Extra(p, ShortZ), p.flags, Extra(p, ShortM), Extra(p, ShortN), Extra(p, ShortP),
            Extra(p, ShortR), Extra(p, ShortS), key, now)
  }

  lemma ExtraOf(m: Message, name: string, short: ShortName)
    ensures Extra(PositionOf(m, name), short) == OrZero(Carried(m, FieldOf(short)))
  {
  }

  function Shifted(b: bv8, low: nat): (c: bv8)
    requires low < 2 && b as int < 128
    ensures c as int == 2 * b as int + low
  {
    if low == 0 then 2 * b else 2 * b + 1
  }

  /** A number below 256 as eight bits. */
  function ByteOf(n: nat): (b: bv8)
    requires n < 256
    ensures b as int == n
  {
    if n == 0 then 0 else Shifted(ByteOf(n / 2), n % 2)
  }

  /** The bits of a flag are set in a mask, whose lowest byte holds both flags. */
  predicate Has(mask: nat, flag: bv8) {
    ByteOf(mask % 256) & flag == flag
  }

  lemma LowestBit(b: bv8)
    ensures b & 1 == 1 <==> b as int % 2 == 1
  {
    assert b & 1 == b % 2;
  }

  lemma Half(b: bv8)
    ensures (b / 2) as int == b as int / 2
  {
  }

  lemma NextBit(b: bv8)
    ensures b & 2 == 2 <==> b as int / 2 % 2 == 1
  {
    Half(b);
    LowestBit(b / 2);
    assert b & 2 == 2 <==> (b / 2) & 1 == 1;
  }

  lemma LowByte(mask: nat)
    ensures mask % 2 == mask % 256 % 2 && mask / 2 % 2 == mask % 256 / 2 % 2
  {
    var high, low := mask / 256, mask % 256;
    assert mask == 2 * (128 * high) + low;
    assert mask / 2 == 2 * (64 * high) + low / 2;
  }

  lemma BitIsMask(mask: nat)
    ensures Bit(mask, 1) == if Has(mask, 1) then 1 else 0
    ensures Bit(mask, 2) == if Has(mask, 2) then 1 else 0
  {
    LowByte(mask);
    LowestBit(ByteOf(mask % 256));
    NextBit(ByteOf(mask % 256));
  }

  /** The twelve fields of a user's hash, each in terms of the message. */
  predicate HoldsMessage(users: Hashes, name: string, m: Message, key: string, now: int) {
    && HGet(users, name, Field.X) == Some(Num(m.x))
    && HGet(users, name, Field.Y) == Some(Num(m.y))
    && HGet(users, name, Field.Z) == Some(Num(if m.z.Some? then m.z.value else 0))
    && HGet(users, name, InCombat) == Some(Num(if Has(m.flags, 1) then 1 else 0))
    && HGet(users, name, Commander) == Some(Num(if Has(m.flags, 2) then 1 else 0))
    && HGet(users, name, MapId) == Some(if m.mapId.None? || m.mapId.value == 0 then Text("") else Num(m.mapId.value))
    && HGet(users, name, MountId) == Some(Num(if m.mountId.Some? then m.mountId.value else 0))
    && HGet(users, name, ProfessionId) == Some(Num(if m.professionId.Some? then m.professionId.value else 0))
    && HGet(users, name, RaceId) == Some(Num(if m.raceId.Some? then m.raceId.value else 0))
    && HGet(users, name, SpecializationId)
       == Some(Num(if m.specializationId.Some? then m.specializationId.value else 0))
    && HGet(users, name, LastUpdated) == Some(Text(Decimal(now)))
    && HGet(users, name, Connection) == Some(Text(key))
  }

  /** A hash that has these fields of a message holds the message. */
  lemma FieldsHoldMessage(users: Hashes, name: string, m: Message, key: string, now: int)
    requires forall f | f in USER_FIELDS :: HGet(users, name, f) == Some(UserFields(m, key, now)[f])
    ensures HoldsMessage(users, name, m, key, now)
  {
    BitIsMask(m.flags);
    hide HGet, Bit, Has, Decimal;
    assert USER_FIELDS == UserFields(m, key, now).Keys;
  }

  /** The detour through the short names of the position loses and swaps nothing. */
  lemma AttributesAreTheMessages(m: Message, name: string, key: string, now: int)
    ensures Attributes(PositionOf(m, name), key, now) == UserFields(m, key, now)
    ensures HoldsMessage(map[name := Hash(Attributes(PositionOf(m, name), key, now), None)], name, m, key, now)
  {
    hide Extra, UserRow, HoldsMessage;
    ExtraOf(m, name, ShortZ);
    ExtraOf(m, name, ShortM);
    ExtraOf(m, name, ShortN);
    ExtraOf(m, name, ShortP);
    ExtraOf(m, name, ShortR);
    ExtraOf(m, name, ShortS);
    FieldsHoldMessage(map[name := Hash(UserFields(m, key, now), None)], name, m, key, now);
  }
}
