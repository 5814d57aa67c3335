/** Prototype: a person whose clone is deep, with an address object of its own. */
module Prototype {

  class Address {
    var city: string
    var street: string

    constructor (city: string, street: string)
      ensures this.city == city && this.street == street
    {
      this.city := city;
      this.street := street;
    }

    /** Replaces the city only. */
    method SetCity(city: string)
      modifies this`city
      ensures this.city == city && street == old(street)
    {
      this.city := city;
    }

    function GetCity(): (c: string)
      reads this
      ensures c == city
    {
      city
    }

    function GetStreet(): (s: string)
      reads this
      ensures s == street
    {
      street
    }

    /** Replaces the street only. */
    method SetStreet(street: string)
      modifies this`street
      ensures this.street == street && city == old(city)
    {
      this.street := street;
    }

    /** PHP's `clone` of an address: a new object with the same two properties. */
    method Clone() returns (copy: Address)
      ensures fresh(copy) && copy.city == city && copy.street == street
    {
      copy := new Address(city, street);
    }
  }

  class PersonPrototype {
    var name: string
    const age: int
    var address: Address

    /** Stores the three arguments; the address object itself is kept, not a copy. */
    constructor (name: string, age: int, address: Address)
      ensures this.name == name && this.age == age && this.address == address
    {
      this.name := name;
      this.age := age;
      this.address := address;
    }

    /** PHP's `clone` followed by `__clone`: a shallow copy of the person whose address is then
        replaced by a clone of it, so the copy shares no object with the original. */
    method Clone() returns (copy: PersonPrototype)
      ensures fresh(copy) && fresh(copy.address)
      ensures copy.name == name && copy.age == age
      ensures copy.address.city == address.city && copy.address.street == address.street
    {
      var addressCopy := address.Clone();
      copy := new PersonPrototype(name, age, addressCopy);
    }

    /** Replaces the name only. */
    method SetName(name: string)
      modifies this`name
      ensures this.name == name && address == old(address)
    {
      this.name := name;
    }

    function GetName(): (n: string)
      reads this
      ensures n == name
    {
      name
    }

    /** The stored address object itself: writes through it change this person's address. */
    function GetAddress(): (a: Address)
      reads this
      ensures a == address
    {
      address
    }
  }

  /** The demonstration script: the clone is renamed; the original keeps its name, and both
      still live in the same city. */
  method PrototypeDemo()
    returns (originalName: string, originalCity: string, clonedName: string, clonedCity: string)
    ensures originalName == "John Doe" && originalCity == "New York"
    ensures clonedName == "Jane Doe" && clonedCity == "New York"
  {
    var address := new Address("New York", "5th Avenue");
    var original := new PersonPrototype("John Doe", 30, address);
    var cloned := original.Clone();
    cloned.SetName("Jane Doe");
    originalName := original.GetName();
    originalCity := original.GetAddress().GetCity();
    clonedName := cloned.GetName();
    clonedCity := cloned.GetAddress().GetCity();
  }

  /** Changing the clone's address through `GetAddress` leaves the original's address as it
      was, while the clone sees the change. */
  method CloneAddressIsIndependent(city: string, street: string, newCity: string, newStreet: string)
    returns (originalCity: string, originalStreet: string, clonedCity: string, clonedStreet: string)
    ensures originalCity == city && originalStreet == street
    ensures clonedCity == newCity && clonedStreet == newStreet
  {
    var address := new Address(city, street);
    var original := new PersonPrototype("John Doe", 30, address);
    var cloned := original.Clone();
    cloned.GetAddress().SetCity(newCity);
    cloned.GetAddress().SetStreet(newStreet);
    originalCity, originalStreet := original.address.GetCity(), original.address.GetStreet();
    clonedCity, clonedStreet := cloned.address.GetCity(), cloned.address.GetStreet();
  }

  /** The constructor keeps the address object it is given: two persons built on one address
      share it, and a write through either one's `GetAddress` shows in the other. */
  method SharedAddressSeesWrites(city: string, newCity: string) returns (seen: string)
    ensures seen == newCity
  {
    var address := new Address(city, "");
    var first := new PersonPrototype("", 0, address);
    var second := new PersonPrototype("", 0, address);
    first.GetAddress().SetCity(newCity);
    seen := second.GetAddress().GetCity();
  }
}
