/** Builder: a concrete builder that fills in a car property by property, and a director that
    drives it with the fixed values of one model. */
module Builders {
  import opened Outcomes
  import opened Cars

  class ConcreteBuilder {
    /** The car under construction (the PHP property is named `builder`). */
    var car: Car

    /** A new builder holds a fresh car with nothing written. */
    constructor ()
      ensures fresh(car) && car.State() == Blank
    {
      car := new Car();
    }

    /** Each build step writes one property of the held car, leaves the other four alone, and
        returns the builder itself so that calls chain. */
    method BuildModel(model: string) returns (self: ConcreteBuilder)
      modifies car
      ensures self == this && car == old(car)
      ensures car.State() == old(car.State()).(model := Some(model))
    {
      car.model := Some(model);
      self := this;
    }

    method BuildYearOfRelease(yearOfRelease: string) returns (self: ConcreteBuilder)
      modifies car
      ensures self == this && car == old(car)
      ensures car.State() == old(car.State()).(yearOfRelease := Some(yearOfRelease))
    {
      car.yearOfRelease := Some(yearOfRelease);
      self := this;
    }

    method BuildPrice(price: int) returns (self: ConcreteBuilder)
      modifies car
      ensures self == this && car == old(car)
      ensures car.State() == old(car.State()).(price := Some(price))
    {
      car.price := Some(price);
      self := this;
    }

    method BuildBrand(brand: string) returns (self: ConcreteBuilder)
      modifies car
      ensures self == this && car == old(car)
      ensures car.State() == old(car.State()).(brand := Some(brand))
    {
      car.brand := Some(brand);
      self := this;
    }

    method BuildTopSpeed(topSpeed: int) returns (self: ConcreteBuilder)
      modifies car
      ensures self == this && car == old(car)
      ensures car.State() == old(car.State()).(topSpeed := Some(topSpeed))
    {
      car.topSpeed := Some(topSpeed);
      self := this;
    }

    /** The held car itself, not a copy: later build steps show through it. */
    function GetCar(): (c: Car)
      reads this
      ensures c == car
    {
      car
    }

    /** Replaces the held car with a fresh one; the previous car is no longer written. */
    method Reset()
      modifies this`car
      ensures fresh(car) && car.State() == Blank
    {
      car := new Car();
    }
  }

  /** The state `buildPorche` leaves in the car, whatever was written before. */
  const Porche := CarState(Some("Cayenne"), Some("2021"), Some(300000), Some("Porche"), Some(210))

  /** The director for one model. */
  class PorcheBuilder {
    /** The builder to drive; PHP leaves the untyped property `null` until one is set. */
    var builder: ConcreteBuilder?

    constructor ()
      ensures builder == null
    {
      builder := null;
    }

    /** Stores the builder to drive, replacing any earlier one. */
    method SetBuilder(builder: ConcreteBuilder)
      modifies this`builder
      ensures this.builder == builder
    {
      this.builder := builder;
    }

    /** Writes the five properties of the model through the stored builder and returns that
        builder; with none stored, the first call on `null` raises PHP's `Error`. */
    method BuildPorche() returns (r: Result<ConcreteBuilder>)
      modifies if builder == null then {} else {builder.car}
      ensures old(builder) == null ==>
        r == Thrown(Exception("Error", "Call to a member function buildBrand() on null"))
      ensures old(builder) != null ==>
        r == Ok(builder) && builder.car == old(builder.car) && builder.car.State() == Porche
    {
      if builder == null {
        return Thrown(Exception("Error", "Call to a member function buildBrand() on null"));
      }
      var b := builder;
      var chained := b.BuildBrand("Porche");
      chained := b.BuildModel("Cayenne");
      chained := b.BuildYearOfRelease("2021");
      chained := b.BuildPrice(300000);
      chained := b.BuildTopSpeed(210);
      r := Ok(b);
    }
  }

  /** The demonstration script: the director drives a new builder, and the car then read from
      that builder has the model's brand. */
  method PorcheDemo() returns (brand: Result<string>, price: Result<int>)
    ensures brand == Ok("Porche") && price == Ok(300000)
  {
    var builder := new ConcreteBuilder();
    var director := new PorcheBuilder();
    director.SetBuilder(builder);
    var chained := director.BuildPorche();
    var car := builder.GetCar();
    brand := car.GetBrand();
    price := car.GetPrice();
  }

  /** A director with no builder set fails before writing anything. */
  method PorcheWithoutBuilder() returns (r: Result<ConcreteBuilder>)
    ensures r.Thrown? && r.error.kind == "Error"
  {
    var director := new PorcheBuilder();
    r := director.BuildPorche();
  }

  /** Build steps chain through the returned builder; writing the same property twice keeps the
      second value; and a car obtained from `GetCar` before the writes sees them, since it is
      the builder's own car. */
  method GetCarAliasesHeldCar(first: string, second: string) returns (seen: Result<string>)
    ensures seen == Ok(second)
  {
    var builder := new ConcreteBuilder();
    var car := builder.GetCar();
    var chained := builder.BuildModel(first);
    chained := chained.BuildModel(second);
    seen := car.GetModel();
  }

  /** After `Reset`, build steps go to the new car: a car obtained before keeps its values. */
  method ResetDetachesEarlierCar(before: string, after: string)
    returns (kept: Result<string>, current: Result<string>)
    ensures kept == Ok(before) && current == Ok(after)
  {
    var builder := new ConcreteBuilder();
    var chained := builder.BuildBrand(before);
    var earlier := builder.GetCar();
    builder.Reset();
    chained := builder.BuildBrand(after);
    kept := earlier.GetBrand();
    current := builder.GetCar().GetBrand();
  }
}
