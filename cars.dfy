/** The car record the builder fills in. Its five typed properties have no default: until one
    is written it is uninitialised, and reading it raises PHP's `Error`. */
module Cars {
  import opened Outcomes

  /** A snapshot of the five properties; `None` is an uninitialised property. */
  datatype CarState = CarState(
    model: Option<string>,
    yearOfRelease: Option<string>,
    price: Option<int>,
    brand: Option<string>,
    topSpeed: Option<int>)

  /** The state of a car on which nothing has been written yet. */
  const Blank := CarState(None, None, None, None, None)

  /** The error PHP raises when an uninitialised typed property is read. */
  function Uninitialised(property: string): Exception
  {
    Exception("Error", "Typed property Car::$" + property + " must not be accessed before initialization")
  }

  /** Reading a property: its value once written, the uninitialised-property error before. */
  function Read<T>(property: string, value: Option<T>): (r: Result<T>)
    ensures r.Ok? <==> value.Some?
    ensures value.Some? ==> r.value == value.value
    ensures value.None? ==> r.error.kind == "Error"
  {
    match value
    case Some(v) => Ok(v)
    case None => Thrown(Uninitialised(property))
  }

  class Car {
    var model: Option<string>
    var yearOfRelease: Option<string>
    var price: Option<int>
    var brand: Option<string>
    var topSpeed: Option<int>

    constructor ()
      ensures State() == Blank
    {
      model, yearOfRelease, price, brand, topSpeed := None, None, None, None, None;
    }

    function State(): CarState
      reads this
    {
      CarState(model, yearOfRelease, price, brand, topSpeed)
    }

    function GetModel(): (r: Result<string>)
      reads this
      ensures r == Read("model", State().model)
    {
      Read("model", model)
    }

    function GetYearOfRelease(): (r: Result<string>)
      reads this
      ensures r == Read("YearOfRelease", State().yearOfRelease)
    {
      Read("YearOfRelease", yearOfRelease)
    }

    function GetPrice(): (r: Result<int>)
      reads this
      ensures r == Read("price", State().price)
    {
      Read("price", price)
    }

    function GetBrand(): (r: Result<string>)
      reads this
      ensures r == Read("Brand", State().brand)
    {
      Read("Brand", brand)
    }

    function GetTopSpeed(): (r: Result<int>)
      reads this
      ensures r == Read("topSpeed", State().topSpeed)
    {
      Read("topSpeed", topSpeed)
    }
  }

  /** A property read before it is written raises an error: every getter of a new car fails. */
  method GettersOfNewCarFail()
    returns (model: Result<string>, yearOfRelease: Result<string>, price: Result<int>,
             brand: Result<string>, topSpeed: Result<int>)
    ensures model.Thrown? && model.error.kind == "Error"
    ensures yearOfRelease.Thrown? && yearOfRelease.error.kind == "Error"
    ensures price.Thrown? && price.error.kind == "Error"
    ensures brand.Thrown? && brand.error.kind == "Error"
    ensures topSpeed.Thrown? && topSpeed.error.kind == "Error"
  {
    var car := new Car();
    model := car.GetModel();
    yearOfRelease := car.GetYearOfRelease();
    price := car.GetPrice();
    brand := car.GetBrand();
    topSpeed := car.GetTopSpeed();
  }
}
