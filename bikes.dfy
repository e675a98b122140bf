/**
 * Class Bicycle and its subclasses PennyFarthing and MountainBike.
 *
 * The three classes are one Dafny class whose constant `runtimeClass` says
 * which of them an object was created as; the virtual members (the Gear
 * property, Info) dispatch on it, also while the base constructor runs, as
 * C# virtual dispatch does. The static BicyclesCreated counter lives in an
 * object of its own that the counting constructors update.
 */
module Bikes {
  import opened Wrappers
  import opened Numbers

  /** Enum BikeBrand: AIST = 0, BMC = 1, Electra = 42, Gitane = 43. */
  datatype BikeBrand = AIST | BMC | Electra | Gitane

  /** The underlying integer of each brand constant. */
  function BrandValue(b: BikeBrand): int32 {
    match b
    case AIST => 0
    case BMC => 1
    case Electra => 42
    case Gitane => 43
  }

  /** The brand constant with the given underlying integer, if one has it. */
  function BrandOf(v: int32): (r: Option<BikeBrand>)
    ensures r.Some? ==> BrandValue(r.value) == v
  {
    if v == 0 then Some(AIST)
    else if v == 1 then Some(BMC)
    else if v == 42 then Some(Electra)
    else if v == 43 then Some(Gitane)
    else None
  }

  /** No two brands share a value, and the declared order is the order of the values. */
  lemma BrandValues(b: BikeBrand)
    ensures BrandOf(BrandValue(b)) == Some(b)
    ensures BrandValue(AIST) < BrandValue(BMC) < BrandValue(Electra) < BrandValue(Gitane)
  {
  }

  /** Flags enum BikeAccessories, as the bits of the underlying integer. */
  const NoAccessories: bv32 := 0
  const Bell: bv32 := 1
  const MudGuards: bv32 := 2
  const Racks: bv32 := 4
  const Lights: bv32 := 8
  const FullPackage: bv32 := Bell | MudGuards | Racks | Lights

  /** Enum.HasFlag: every bit of flag is set in value. */
  function HasFlag(value: bv32, flag: bv32): bool {
    value & flag == flag
  }

  /** FullPackage is 15, and a value has it exactly when it has each of the four accessories. */
  lemma FullPackageIsEveryAccessory(a: bv32)
    ensures FullPackage == 15
    ensures HasFlag(a, FullPackage) <==>
      HasFlag(a, Bell) && HasFlag(a, MudGuards) && HasFlag(a, Racks) && HasFlag(a, Lights)
  {
  }

  /** The class an object was created as. */
  datatype RuntimeClass = BicycleClass | PennyFarthingClass | MountainBikeClass

  /** object.ToString(): the full name of the object's class. */
  function TypeName(c: RuntimeClass): string {
    match c
    case BicycleClass => "simpleserver.Bicycle"
    case PennyFarthingClass => "simpleserver.PennyFarthing"
    case MountainBikeClass => "simpleserver.MountainBike"
  }

  /** What the members of a Bicycle read: the Gear property (not its backing field) and the other fields. */
  datatype BikeView = BikeView(
    runtimeClass: RuntimeClass,
    gear: int32,
    cadence: int32,
    speed: int32,
    name: string,
    brand: BikeBrand,
    hasCardsInSpokes: bool,
    hasTassles: bool,
    isBroken: bool,
    wheels: int32,
    frameSize: int32,
    accessories: bv32)

  /** The state the parameterless constructor Bicycle() leaves. */
  function DefaultView(c: RuntimeClass): BikeView {
    BikeView(c, 1, 50, 5, "Bontrager", AIST, false, false, false, 0, 0, NoAccessories)
  }

  /**
   * The state the six-argument constructor leaves in an object of class c:
   * each given value, except that a PennyFarthing's Gear reads 0 whatever it
   * was given, and defaults elsewhere.
   */
  function SpecifiedView(c: RuntimeClass, startCadence: int32, startSpeed: int32, startGear: int32,
                         name: string, hasCardsInSpokes: bool, brand: BikeBrand): BikeView
  {
    BikeView(c, if c == PennyFarthingClass then 0 else startGear, startCadence, startSpeed,
             name, brand, hasCardsInSpokes, false, false, 0, 0, NoAccessories)
  }

  const InitialPassengers: seq<string> := ["chris", "phil", "darren", "regina"]

  // ---------------------------------------------------------------------------
  // Info and LongName text, and a reader that recovers the fields from it.
  // ---------------------------------------------------------------------------

  const Separator: string := "\n------------------------------\n"

  function CardsText(b: bool): string {
    if b then "yes" else "no"
  }

  /** The end of Bicycle.Info(): the cards flag and the separator line. */
  function CardsTail(b: bool): string {
    " Cards in Spokes: " + CardsText(b) + Separator
  }

  /** Bicycle.Info(), grouped from the right so that each label keeps its leading space. */
  function BaseInfo(v: BikeView): string {
    "Gear: " + IntToString(v.gear as int) +
    (" Cadence: " + IntToString(v.cadence as int) +
    (" Speed: " + IntToString(v.speed as int) +
    (" Name: " + v.name + CardsTail(v.hasCardsInSpokes))))
  }

  /** PennyFarthing.Info(): a fixed prefix, then object.ToString(). */
  function PennyFarthingInfo(v: BikeView): string {
    "PennyFarthing bicycle " + TypeName(v.runtimeClass)
  }

  /** The virtual Info(), dispatched on the object's class. */
  function InfoText(v: BikeView): string {
    if v.runtimeClass == PennyFarthingClass then PennyFarthingInfo(v) else BaseInfo(v)
  }

  /** The LongName property. */
  function LongNameText(v: BikeView): string {
    v.name + " " + IntToString(v.speed as int) + " speed"
  }

  /** The longest prefix of s without a space. */
  function FirstWord(s: string): (w: string)
    ensures w <= s && ' ' !in w
    ensures |w| < |s| ==> s[|w|] == ' '
  {
    if s == [] || s[0] == ' ' then [] else [s[0]] + FirstWord(s[1..])
  }

  /** The longest suffix of s without a space. */
  function LastWord(s: string): (w: string)
    ensures |w| <= |s| && w == s[|s| - |w|..] && ' ' !in w
    ensures |w| < |s| ==> s[|s| - |w| - 1] == ' '
  {
    if s == [] || s[|s| - 1] == ' ' then [] else LastWord(s[..|s| - 1]) + [s[|s| - 1]]
  }

  /** The first word of w + rest is w when rest is empty or starts with a space. */
  lemma {:induction false} FirstWordBeforeSpace(w: string, rest: string)
    requires ' ' !in w
    requires rest == [] || rest[0] == ' '
    ensures FirstWord(w + rest) == w
  {
    var s := w + rest;
    if w != [] {
      assert s[0] == w[0] && s[1..] == w[1..] + rest;
      FirstWordBeforeSpace(w[1..], rest);
      assert [w[0]] + w[1..] == w;
    }
  }

  lemma {:induction false} LastWordAfterSpace(rest: string, w: string)
    requires ' ' !in w
    ensures LastWord(rest + " " + w) == w
  {
    var s := rest + " " + w;
    if w != [] {
      var init := w[..|w| - 1];
      assert s[|s| - 1] == w[|w| - 1] && s[..|s| - 1] == rest + " " + init;
      LastWordAfterSpace(rest, init);
      assert init + [w[|w| - 1]] == w;
    }
  }

  /**
   * Reads `prefix` and then an integer off the front of t; answers the
   * integer and what follows it, which is empty or starts with a space.
   */
  function ReadNumber(t: string, prefix: string): Option<(int, string)> {
    if prefix <= t then
      var w := FirstWord(t[|prefix|..]);
      match ParseInt(w)
      case Some(n) => Some((n, t[|prefix| + |w|..]))
      case None => None
    else None
  }

  lemma ReadNumberOf(prefix: string, n: int, rest: string)
    requires rest == [] || rest[0] == ' '
    ensures ReadNumber(prefix + IntToString(n) + rest, prefix) == Some((n, rest))
  {
    var w := IntToString(n);
    var t := prefix + w + rest;
    assert t[|prefix|..] == w + rest;
    FirstWordBeforeSpace(w, rest);
    IntToStringRoundTrip(n);
    assert t[|prefix| + |w|..] == rest;
  }

  /** The fields Info() reports for a Bicycle. */
  datatype InfoFields = InfoFields(gear: int, cadence: int, speed: int, name: string, hasCardsInSpokes: bool)

  /** Reads the fields back from a Bicycle.Info() text; None for text of any other shape. */
  function ReadInfo(t: string): Option<InfoFields> {
    match ReadNumber(t, "Gear: ")
    case None => None
    case Some((g, r1)) =>
      match ReadNumber(r1, " Cadence: ")
      case None => None
      case Some((c, r2)) =>
        match ReadNumber(r2, " Speed: ")
        case None => None
        case Some((s, r3)) =>
          match ReadNameAndCards(r3)
          case None => None
          case Some((name, cards)) => Some(InfoFields(g, c, s, name, cards))
  }

  /** Reads the end of an Info text: " Name: ", the name, and the cards tail. */
  function ReadNameAndCards(t: string): Option<(string, bool)> {
    if " Name: " <= t then
      var body := t[7..];
      var yes, no := CardsTail(true), CardsTail(false);
      if |yes| <= |body| && body[|body| - |yes|..] == yes then Some((body[..|body| - |yes|], true))
      else if |no| <= |body| && body[|body| - |no|..] == no then Some((body[..|body| - |no|], false))
      else None
    else None
  }

  lemma ReadNameAndCardsOf(name: string, cards: bool)
    ensures ReadNameAndCards(" Name: " + name + CardsTail(cards)) == Some((name, cards))
  {
    var tail := CardsTail(cards);
    var t := " Name: " + name + tail;
    var body := name + tail;
    assert t[7..] == body;
    assert body[|body| - |tail|..] == tail;
    assert body[..|body| - |tail|] == name;
    if !cards {
      var yes := CardsTail(true);
      assert |yes| <= |body| ==> body[|body| - |Separator| - 2] != yes[|yes| - |Separator| - 2];
    }
  }

  /** Bicycle.Info() reports exactly the Gear, Cadence, speed, Name and cards of the bike. */
  lemma BaseInfoRoundTrip(v: BikeView)
    ensures ReadInfo(BaseInfo(v)) == Some(InfoFields(v.gear as int, v.cadence as int, v.speed as int, v.name, v.hasCardsInSpokes))
  {
    var r3 := " Name: " + v.name + CardsTail(v.hasCardsInSpokes);
    var r2 := " Speed: " + IntToString(v.speed as int) + r3;
    var r1 := " Cadence: " + IntToString(v.cadence as int) + r2;
    ReadNumberOf("Gear: ", v.gear as int, r1);
    ReadNumberOf(" Cadence: ", v.cadence as int, r2);
    ReadNumberOf(" Speed: ", v.speed as int, r3);
    ReadNameAndCardsOf(v.name, v.hasCardsInSpokes);
  }

  /** PennyFarthing.Info() is the same fixed text for every penny-farthing, and not a Bicycle.Info() text. */
  lemma PennyFarthingInfoFixed(v: BikeView)
    requires v.runtimeClass == PennyFarthingClass
    ensures InfoText(v) == "PennyFarthing bicycle simpleserver.PennyFarthing"
    ensures ReadInfo(InfoText(v)) == None
  {
    assert !("Gear: " <= InfoText(v)) by {
      assert InfoText(v)[0] == 'P';
    }
  }

  /** Reads a LongName text back into the name and the speed. */
  function ReadLongName(t: string): Option<(string, int)> {
    if |" speed"| <= |t| && t[|t| - 6..] == " speed" then
      var body := t[..|t| - 6];
      var w := LastWord(body);
      if |w| < |body| then
        match ParseInt(w)
        case Some(n) => Some((body[..|body| - |w| - 1], n))
        case None => None
      else None
    else None
  }

  lemma ReadLongNameOf(name: string, n: int)
    ensures ReadLongName(name + " " + IntToString(n) + " speed") == Some((name, n))
  {
    var w := IntToString(n);
    var body := name + " " + w;
    var t := body + " speed";
    assert t[|t| - 6..] == " speed";
    assert t[..|t| - 6] == body;
    LastWordAfterSpace(name, w);
    IntToStringRoundTrip(n);
    assert body[..|body| - |w| - 1] == name;
  }

  /** LongName reports exactly the bike's Name and speed. */
  lemma LongNameRoundTrip(v: BikeView)
    ensures ReadLongName(LongNameText(v)) == Some((v.name, v.speed as int))
  {
    ReadLongNameOf(v.name, v.speed as int);
  }

  // ---------------------------------------------------------------------------
  // The objects.
  // ---------------------------------------------------------------------------

  /** The static members of Bicycle. */
  class BicycleStatics {
    var bicyclesCreated: int32

    constructor ()
      ensures bicyclesCreated == 0
    {
      bicyclesCreated := 0;
    }

    predicate DidWeCreateEnoughBicycles()
      reads this
    {
      bicyclesCreated > 9000
    }
  }

  class Bicycle {
    const runtimeClass: RuntimeClass
    var cadence: int32
    /** The backing field of the auto-property Gear; the PennyFarthing override never touches it. */
    var gearField: int32
    var wheels: int32
    var speed: int32
    var name: string
    var brand: BikeBrand
    var accessories: bv32
    /** readonly: set only by the constructors. */
    const hasCardsInSpokes: bool
    var hasTassles: bool
    var isBroken: bool
    var frameSize: int32
    /** The array behind the indexer. */
    const passengers: array<string>
    /** MountainBike's accumulated damage; stays 0 on the other classes. */
    var damage: int32

    /** The virtual Gear property's getter: a PennyFarthing always reads 0. */
    function Gear(): (g: int32)
      reads this
      ensures runtimeClass == PennyFarthingClass ==> g == 0
    {
      if runtimeClass == PennyFarthingClass then 0 else gearField
    }

    function View(): BikeView
      reads this
    {
      BikeView(runtimeClass, Gear(), cadence, speed, name, brand, hasCardsInSpokes,
               hasTassles, isBroken, wheels, frameSize, accessories)
    }

    /** The virtual Gear property's setter: a PennyFarthing ignores it silently. */
    method SetGear(value: int32)
      modifies this`gearField
      ensures Gear() == if runtimeClass == PennyFarthingClass then 0 else value
      ensures runtimeClass == PennyFarthingClass ==> gearField == old(gearField)
    {
      if runtimeClass != PennyFarthingClass {
        gearField := value;
      }
    }

    /** Bicycle(): the default bike, counted in BicyclesCreated. */
    constructor (statics: BicycleStatics)
      modifies statics
      ensures View() == DefaultView(BicycleClass)
      ensures fresh(passengers) && passengers[..] == InitialPassengers && damage == 0
      ensures statics.bicyclesCreated == Wrap(old(statics.bicyclesCreated) as int + 1)
    {
      runtimeClass := BicycleClass;
      hasCardsInSpokes := false;
      passengers := new string[] ["chris", "phil", "darren", "regina"];
      gearField, wheels, frameSize, damage := 0, 0, 0, 0;
      hasTassles, isBroken, accessories := false, false, NoAccessories;
      cadence, speed, name, brand := 50, 5, "Bontrager", AIST;
      new;
      SetGear(1);
      statics.bicyclesCreated := Wrap(statics.bicyclesCreated as int + 1);
    }

    /** MountainBike(): its implicit constructor runs Bicycle(), so it is counted too. */
    constructor MountainBike(statics: BicycleStatics)
      modifies statics
      ensures View() == DefaultView(MountainBikeClass)
      ensures fresh(passengers) && passengers[..] == InitialPassengers && damage == 0
      ensures statics.bicyclesCreated == Wrap(old(statics.bicyclesCreated) as int + 1)
    {
      runtimeClass := MountainBikeClass;
      hasCardsInSpokes := false;
      passengers := new string[] ["chris", "phil", "darren", "regina"];
      gearField, wheels, frameSize, damage := 0, 0, 0, 0;
      hasTassles, isBroken, accessories := false, false, NoAccessories;
      cadence, speed, name, brand := 50, 5, "Bontrager", AIST;
      new;
      SetGear(1);
      statics.bicyclesCreated := Wrap(statics.bicyclesCreated as int + 1);
    }

    /** The six-argument constructor. It chains to object's constructor, not Bicycle(), so nothing is counted. */
    constructor Specified(startCadence: int32, startSpeed: int32, startGear: int32,
                          name: string, hasCardsInSpokes: bool, brand: BikeBrand)
      ensures View() == SpecifiedView(BicycleClass, startCadence, startSpeed, startGear, name, hasCardsInSpokes, brand)
      ensures fresh(passengers) && passengers[..] == InitialPassengers && damage == 0
    {
      runtimeClass := BicycleClass;
      this.hasCardsInSpokes := hasCardsInSpokes;
      passengers := new string[] ["chris", "phil", "darren", "regina"];
      gearField, wheels, frameSize, damage := 0, 0, 0, 0;
      hasTassles, isBroken, accessories := false, false, NoAccessories;
      cadence, speed, this.name, this.brand := startCadence, startSpeed, name, brand;
      new;
      SetGear(startGear);
    }

    /** The three-argument constructor: the six-argument one with gear 0, "big wheels" and cards in the spokes. */
    constructor WithBrand(startCadence: int32, startSpeed: int32, brand: BikeBrand)
      ensures View() == SpecifiedView(BicycleClass, startCadence, startSpeed, 0, "big wheels", true, brand)
      ensures fresh(passengers) && passengers[..] == InitialPassengers && damage == 0
    {
      runtimeClass := BicycleClass;
      hasCardsInSpokes := true;
      passengers := new string[] ["chris", "phil", "darren", "regina"];
      gearField, wheels, frameSize, damage := 0, 0, 0, 0;
      hasTassles, isBroken, accessories := false, false, NoAccessories;
      cadence, speed, name, this.brand := startCadence, startSpeed, "big wheels", brand;
      new;
      SetGear(0);
    }

    /**
     * PennyFarthing(startCadence, startSpeed): the six-argument base constructor
     * with gear 0, "PennyFarthing", cards in the spokes and Electra; its Gear
     * assignment goes to the override and is ignored.
     */
    constructor PennyFarthing(startCadence: int32, startSpeed: int32)
      ensures View() == SpecifiedView(PennyFarthingClass, startCadence, startSpeed, 0, "PennyFarthing", true, Electra)
      ensures fresh(passengers) && passengers[..] == InitialPassengers && damage == 0
    {
      runtimeClass := PennyFarthingClass;
      hasCardsInSpokes := true;
      passengers := new string[] ["chris", "phil", "darren", "regina"];
      gearField, wheels, frameSize, damage := 0, 0, 0, 0;
      hasTassles, isBroken, accessories := false, false, NoAccessories;
      cadence, speed, name, brand := startCadence, startSpeed, "PennyFarthing", Electra;
      new;
      SetGear(0);
    }

    /** PennyFarthing.CreateWithGears: the gear request is silently dropped and nothing is thrown. */
    static method CreateWithGears(gears: int32) returns (penny: Bicycle)
      ensures fresh(penny) && fresh(penny.passengers)
      ensures penny.View() == SpecifiedView(PennyFarthingClass, 1, 1, 0, "PennyFarthing", true, Electra)
      ensures penny.Gear() == 0
    {
      penny := new Bicycle.PennyFarthing(1, 1);
      penny.SetGear(gears);
    }

    /** SpeedUp(increment = 1): adds to the speed, with int wrap-around and no other check. */
    method SpeedUp(increment: int32 := 1)
      modifies this`speed
      ensures speed == Wrap(old(speed) as int + increment as int)
    {
      speed := Wrap(speed as int + increment as int);
    }

    /** SlowDown(decrement = 1): subtracts from the speed, with int wrap-around and no other check. */
    method SlowDown(decrement: int32 := 1)
      modifies this`speed
      ensures speed == Wrap(old(speed) as int - decrement as int)
    {
      speed := Wrap(speed as int - decrement as int);
    }

    /** The indexer's getter; an index outside the array (IndexOutOfRangeException) reads None. */
    function Passenger(i: int): (r: Option<string>)
      reads passengers
      ensures r.Some? <==> 0 <= i < passengers.Length
      ensures r.Some? ==> r.value == passengers[i]
    {
      if 0 <= i < passengers.Length then Some(passengers[i]) else None
    }

    /** The indexer's setter: replaces slot i and no other; an index outside the array changes nothing. */
    method SetPassenger(i: int, value: string) returns (ok: bool)
      modifies passengers
      ensures ok <==> 0 <= i < passengers.Length
      ensures passengers[..] == if ok then old(passengers[..])[i := value] else old(passengers[..])
    {
      ok := 0 <= i < passengers.Length;
      if ok {
        passengers[i] := value;
      }
    }

    /** The virtual Info(): the field summary for a Bicycle, the fixed text for a PennyFarthing. */
    function Info(): (r: string)
      reads this
      ensures runtimeClass != PennyFarthingClass ==>
        ReadInfo(r) == Some(InfoFields(Gear() as int, cadence as int, speed as int, name, hasCardsInSpokes))
      ensures runtimeClass == PennyFarthingClass ==> r == "PennyFarthing bicycle simpleserver.PennyFarthing"
    {
      var v := View();
      if runtimeClass == PennyFarthingClass then
        PennyFarthingInfoFixed(v);
        InfoText(v)
      else
        BaseInfoRoundTrip(v);
        InfoText(v)
    }

    /** LongName: the name, the speed and the word "speed". */
    function LongName(): (r: string)
      reads this
      ensures ReadLongName(r) == Some((name, speed as int))
    {
      LongNameRoundTrip(View());
      LongNameText(View())
    }

    /** object.ToString(). */
    function ToString(): string
      reads this
    {
      TypeName(runtimeClass)
    }

    /** MountainBike.Jump: adds the height to the damage, with int wrap-around. */
    method Jump(meters: int32)
      requires runtimeClass == MountainBikeClass
      modifies this`damage
      ensures damage == Wrap(old(damage) as int + meters as int)
      ensures Broken() <==> Wrap(old(damage) as int + meters as int) > 100
    {
      damage := Wrap(damage as int + meters as int);
    }

    /** MountainBike.Broken: more than 100 damage. */
    predicate Broken()
      requires runtimeClass == MountainBikeClass
      reads this
    {
      damage > 100
    }
  }

  /** Speeding up by n and then slowing down by n gives back the original speed, wrap-around included. */
  lemma SlowDownUndoesSpeedUp(speed: int32, n: int32)
    ensures Wrap(Wrap(speed as int + n as int) as int - n as int) == speed
  {
    WrapAddSub(speed, n);
  }

  /**
   * Classes(): a default bike sped up by 3 with its cadence set to 100, and a
   * PennyFarthing(1, 10). The first printed Info text reports gear 1, cadence
   * 100, speed 8, the name Bontrager and no cards; the second is the fixed
   * PennyFarthing text.
   */
  method Classes(statics: BicycleStatics) returns (trekInfo: string, funbikeInfo: string)
    modifies statics
    ensures ReadInfo(trekInfo) == Some(InfoFields(1, 100, 8, "Bontrager", false))
    ensures funbikeInfo == "PennyFarthing bicycle simpleserver.PennyFarthing"
    ensures statics.bicyclesCreated == Wrap(old(statics.bicyclesCreated) as int + 1)
  {
    var trek := new Bicycle(statics);
    trek.SpeedUp(3);
    trek.cadence := 100;
    trekInfo := trek.Info();
    var funbike := new Bicycle.PennyFarthing(1, 10);
    funbikeInfo := funbike.Info();
  }
}
