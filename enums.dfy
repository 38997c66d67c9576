/**
  The string-valued enumerations of the application (src/app/core/enums.py).

  Every enumeration derives from `BaseEnum`, a `str`-backed `Enum` whose `__str__`
  returns the member's value. Each one becomes a datatype here with
  - `Value()`: the fixed member/value table,
  - `ToString()`: `BaseEnum.__str__`, the member's value,
  - `FromValue(s)`: constructing the enum from a string, a partial lookup that is
    `None` where Python raises `ValueError`.
  The contract of `FromValue` says that it finds exactly the members whose value is
  `s`; together with `ToString` this makes the values pairwise distinct (no aliases).
 */
module Enums {
  import opened Wrappers

  /** Where a price was observed. */
  datatype SupplyType = Origin | Wholesale | Retail
  {
    function Value(): string {
      match this
      case Origin => "產地"
      case Wholesale => "批發"
      case Retail => "零售"
    }

    /** `BaseEnum.__str__`: the value, which looks up to this member again. */
    function ToString(): (r: string)
      ensures FromValue(r) == Some(this)
    {
      Value()
    }

    /** `SupplyType(s)`: the member whose value is `s`, or `None` (ValueError). */
    static function FromValue(s: string): (r: Option<SupplyType>)
      ensures forall m: SupplyType :: r == Some(m) <==> m.Value() == s
    {
      if s == "產地" then Some(Origin)
      else if s == "批發" then Some(Wholesale)
      else if s == "零售" then Some(Retail)
      else None
    }
  }

  /** The domain of a report. */
  datatype Category = Agriculture | Livestock | Fishery
  {
    function Value(): string {
      match this
      case Agriculture => "農產品"
      case Livestock => "畜禽產品"
      case Fishery => "漁產品"
    }

    /** `BaseEnum.__str__`: the value, which looks up to this member again. */
    function ToString(): (r: string)
      ensures FromValue(r) == Some(this)
    {
      Value()
    }

    /** `Category(s)`: the member whose value is `s`, or `None` (ValueError). */
    static function FromValue(s: string): (r: Option<Category>)
      ensures forall m: Category :: r == Some(m) <==> m.Value() == s
    {
      if s == "農產品" then Some(Agriculture)
      else if s == "畜禽產品" then Some(Livestock)
      else if s == "漁產品" then Some(Fishery)
      else None
    }
  }

  /** The commodity a report is about. */
  datatype ProductType =
    // Agriculture
    | Rice | Vegetable | Fruit | Flower
    // Livestock
    | Hog | Ram | Chicken | Duck | Goose
    // Fishery
    | Fish | Shrimp | Shellfish
    // Others
    | Others
  {
    function Value(): string {
      match this
      case Rice => "糧"
      case Vegetable => "蔬菜"
      case Fruit => "水果"
      case Flower => "花卉"
      case Hog => "豬"
      case Ram => "羊"
      case Chicken => "雞"
      case Duck => "鴨"
      case Goose => "鵝"
      case Fish => "魚類"
      case Shrimp => "蝦類"
      case Shellfish => "貝類"
      case Others => "其他"
    }

    /** `BaseEnum.__str__`: the value, which looks up to this member again. */
    function ToString(): (r: string)
      ensures FromValue(r) == Some(this)
    {
      Value()
    }

    /** `ProductType(s)`: the member whose value is `s`, or `None` (ValueError). */
    static function FromValue(s: string): (r: Option<ProductType>)
      ensures forall m: ProductType :: r == Some(m) <==> m.Value() == s
    {
      if s == "糧" then Some(Rice)
      else if s == "蔬菜" then Some(Vegetable)
      else if s == "水果" then Some(Fruit)
      else if s == "花卉" then Some(Flower)
      else if s == "豬" then Some(Hog)
      else if s == "羊" then Some(Ram)
      else if s == "雞" then Some(Chicken)
      else if s == "鴨" then Some(Duck)
      else if s == "鵝" then Some(Goose)
      else if s == "魚類" then Some(Fish)
      else if s == "蝦類" then Some(Shrimp)
      else if s == "貝類" then Some(Shellfish)
      else if s == "其他" then Some(Others)
      else None
    }
  }

  /** The kinds of source file a reader can be asked for. */
  datatype FileTypes = Csv | Json | Excel | Pdf | Txt
  {
    function Value(): string {
      match this
      case Csv => "csv"
      case Json => "json"
      case Excel => "excel"
      case Pdf => "pdf"
      case Txt => "txt"
    }

    /** `BaseEnum.__str__`: the value, which looks up to this member again. */
    function ToString(): (r: string)
      ensures FromValue(r) == Some(this)
    {
      Value()
    }

    /** `FileTypes(s)`: the member whose value is `s`, or `None` (ValueError). */
    static function FromValue(s: string): (r: Option<FileTypes>)
      ensures forall m: FileTypes :: r == Some(m) <==> m.Value() == s
    {
      if s == "csv" then Some(Csv)
      else if s == "json" then Some(Json)
      else if s == "excel" then Some(Excel)
      else if s == "pdf" then Some(Pdf)
      else if s == "txt" then Some(Txt)
      else None
    }
  }

  /** Calendar names that the open calendar data lists but that are working days for the markets. */
  datatype IsNotHolidays = LaborDay | ArmedForcesDay
  {
    function Value(): string {
      match this
      case LaborDay => "勞動節"
      case ArmedForcesDay => "軍人節"
    }

    /** `BaseEnum.__str__`: the value, which looks up to this member again. */
    function ToString(): (r: string)
      ensures FromValue(r) == Some(this)
    {
      Value()
    }

    /** `IsNotHolidays(s)`: the member whose value is `s`, or `None` (ValueError). */
    static function FromValue(s: string): (r: Option<IsNotHolidays>)
      ensures forall m: IsNotHolidays :: r == Some(m) <==> m.Value() == s
    {
      if s == "勞動節" then Some(LaborDay)
      else if s == "軍人節" then Some(ArmedForcesDay)
      else None
    }
  }

  /** Endpoints of the open data services the application calls. */
  datatype OpenApis = TaiwanCalendarApi
  {
    function Value(): string {
      match this
      case TaiwanCalendarApi => "https://data.ntpc.gov.tw/api/datasets/308DCD75-6434-45BC-A95F-584DA4FED251"
    }

    /** `BaseEnum.__str__`: the value, which looks up to this member again. */
    function ToString(): (r: string)
      ensures FromValue(r) == Some(this)
    {
      Value()
    }

    /** `OpenApis(s)`: the member whose value is `s`, or `None` (ValueError). */
    static function FromValue(s: string): (r: Option<OpenApis>)
      ensures forall m: OpenApis :: r == Some(m) <==> m.Value() == s
    {
      if s == "https://data.ntpc.gov.tw/api/datasets/308DCD75-6434-45BC-A95F-584DA4FED251" then
        // a one-member enumeration: every value is that member
        assert forall m: OpenApis :: m.Value() == s ==> m.TaiwanCalendarApi?;
        Some(TaiwanCalendarApi)
      else None
    }
  }

  /** The lookup of `IsNotHolidays` succeeds for exactly the two designated labels. */
  lemma IsNotHolidaysLabels(s: string)
    ensures IsNotHolidays.FromValue(s).Some? <==> s == "勞動節" || s == "軍人節"
  {
  }

  /** No two `ProductType` members share a value, so the lookup by value is a function. */
  lemma ProductTypeValuesDistinct(a: ProductType, b: ProductType)
    ensures a.Value() == b.Value() ==> a == b
  {
    assert ProductType.FromValue(a.ToString()) == Some(a);
  }

  /** No two `SupplyType` members share a value. */
  lemma SupplyTypeValuesDistinct(a: SupplyType, b: SupplyType)
    ensures a.Value() == b.Value() ==> a == b
  {
    assert SupplyType.FromValue(a.ToString()) == Some(a);
  }

  /** No two `FileTypes` members share a value. */
  lemma FileTypesValuesDistinct(a: FileTypes, b: FileTypes)
    ensures a.Value() == b.Value() ==> a == b
  {
    assert FileTypes.FromValue(a.ToString()) == Some(a);
  }
}
