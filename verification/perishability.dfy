/**
 * Shelf-life rules (`RULES`, `calculateExpiry`): a table of hours per food
 * type and storage condition, with a two-hour fallback for anything the table
 * does not name. Times are integer milliseconds since the epoch.
 */
module Perishability {
  import opened Wrappers

  datatype FoodType = CookedVeg | CookedNonVeg | RawVeg | Bakery
  datatype Storage = RoomTemp | Refrigerated

  function FoodTypeName(f: FoodType): string {
    match f
    case CookedVeg => "COOKED_VEG"
    case CookedNonVeg => "COOKED_NON_VEG"
    case RawVeg => "RAW_VEG"
    case Bakery => "BAKERY"
  }

  function StorageName(s: Storage): string {
    match s
    case RoomTemp => "ROOM_TEMP"
    case Refrigerated => "REFRIGERATED"
  }

  /** The table's keys: only the exact upper-case names are recognised. */
  function ParseFoodType(s: string): (f: Option<FoodType>)
    ensures f.Some? ==> FoodTypeName(f.value) == s
    ensures f.None? ==> forall g: FoodType :: FoodTypeName(g) != s
  {
    if s == "COOKED_VEG" then Some(CookedVeg)
    else if s == "COOKED_NON_VEG" then Some(CookedNonVeg)
    else if s == "RAW_VEG" then Some(RawVeg)
    else if s == "BAKERY" then Some(Bakery)
    else None
  }

  function ParseStorage(s: string): (st: Option<Storage>)
    ensures st.Some? ==> StorageName(st.value) == s
    ensures st.None? ==> forall t: Storage :: StorageName(t) != s
  {
    if s == "ROOM_TEMP" then Some(RoomTemp)
    else if s == "REFRIGERATED" then Some(Refrigerated)
    else None
  }

  lemma ParseNames(f: FoodType, s: Storage)
    ensures ParseFoodType(FoodTypeName(f)) == Some(f)
    ensures ParseStorage(StorageName(s)) == Some(s)
  {
  }

  /** `RULES[foodType][storageCondition]`, in hours. */
  function ShelfLifeHours(f: FoodType, s: Storage): (h: nat)
    ensures h >= 12
  {
    match (f, s)
    case (CookedVeg, RoomTemp) => 12
    case (CookedVeg, Refrigerated) => 24
    case (CookedNonVeg, RoomTemp) => 12
    case (CookedNonVeg, Refrigerated) => 24
    case (RawVeg, RoomTemp) => 48
    case (RawVeg, Refrigerated) => 120
    case (Bakery, RoomTemp) => 48
    case (Bakery, Refrigerated) => 72
  }

  /** Refrigeration never shortens the shelf life. */
  lemma RefrigeratedLastsLonger(f: FoodType)
    ensures ShelfLifeHours(f, Refrigerated) >= ShelfLifeHours(f, RoomTemp)
  {
  }

  const FallbackHours: nat := 2
  const HourMs: int := 60 * 60 * 1000

  /** `calculateExpiry`: cooked time plus the table's shelf life, or plus two
      hours when either name is not in the table. */
  function CalculateExpiry(foodType: string, storageCondition: string, cookedTime: int): (expiry: int)
    ensures expiry > cookedTime
    ensures (ParseFoodType(foodType).Some? && ParseStorage(storageCondition).Some?) ==>
      expiry == cookedTime
                + ShelfLifeHours(ParseFoodType(foodType).value, ParseStorage(storageCondition).value) * HourMs
    ensures (ParseFoodType(foodType).None? || ParseStorage(storageCondition).None?) ==>
      expiry == cookedTime + FallbackHours * HourMs
  {
    var f := ParseFoodType(foodType);
    var s := ParseStorage(storageCondition);
    if f.None? || s.None? then cookedTime + FallbackHours * HourMs
    else cookedTime + ShelfLifeHours(f.value, s.value) * HourMs
  }

  /** Later preparation never gives an earlier expiry, and the shelf life is
      the same whenever the food was cooked. */
  lemma ExpiryMonotone(foodType: string, storageCondition: string, t1: int, t2: int)
    requires t1 <= t2
    ensures CalculateExpiry(foodType, storageCondition, t1) <= CalculateExpiry(foodType, storageCondition, t2)
    ensures CalculateExpiry(foodType, storageCondition, t2) - CalculateExpiry(foodType, storageCondition, t1)
            == t2 - t1
  {
  }

  /** The fallback is the most cautious answer: a named rule never expires sooner. */
  lemma FallbackIsShortest(f: FoodType, s: Storage, unknown: string, storageCondition: string, cookedTime: int)
    requires ParseFoodType(unknown).None?
    ensures CalculateExpiry(unknown, storageCondition, cookedTime)
            < CalculateExpiry(FoodTypeName(f), StorageName(s), cookedTime)
  {
    ParseNames(f, s);
  }
}
