/**
 * The three record classes the client caches: Coordinates, Address and Organization.
 * Each id is readonly (a `const`); every other field has a setter that changes that
 * field alone, which the field-level `modifies` frames state.
 */
module Entities {
  import opened Wrappers

  /** A JavaScript number as far as the model needs it: an exact real (NaN and the infinities are not modelled). */
  type JsNumber = real

  predicate IsInteger(v: JsNumber) {
    v.Floor as real == v
  }

  /** The error a Coordinates setter throws; it carries the rejected value. */
  datatype NumberFormatException = NumberFormatException(n: JsNumber)

  class Coordinates {
    const id: int
    var x: int
    var y: int

    constructor (id: int, x: int, y: int)
      ensures this.id == id && this.x == x && this.y == y
    {
      this.id := id;
      this.x := x;
      this.y := y;
    }

    /** `set x`: a non-integer is refused with NumberFormatException(v) and x is kept; any integer is stored, with no bound. */
    method SetX(v: JsNumber) returns (outcome: Outcome<NumberFormatException>)
      modifies this`x
      ensures IsInteger(v) ==> outcome == Pass && x as real == v
      ensures !IsInteger(v) ==> outcome == Fail(NumberFormatException(v)) && x == old(x)
    {
      if !IsInteger(v) {
        return Fail(NumberFormatException(v));
      }
      x := v.Floor;
      outcome := Pass;
    }

    /** `set y`: the same guard as `set x`, on y. */
    method SetY(v: JsNumber) returns (outcome: Outcome<NumberFormatException>)
      modifies this`y
      ensures IsInteger(v) ==> outcome == Pass && y as real == v
      ensures !IsInteger(v) ==> outcome == Fail(NumberFormatException(v)) && y == old(y)
    {
      if !IsInteger(v) {
        return Fail(NumberFormatException(v));
      }
      y := v.Floor;
      outcome := Pass;
    }
  }

  class Address {
    const id: int
    var street: string
    var zip: string

    /** Stores its arguments as given; an empty street or zip is not refused. */
    constructor (id: int, street: string, zip: string)
      ensures this.id == id && this.street == street && this.zip == zip
    {
      this.id := id;
      this.street := street;
      this.zip := zip;
    }

    method SetStreet(value: string)
      modifies this`street
      ensures street == value
    {
      street := value;
    }

    method SetZip(value: string)
      modifies this`zip
      ensures zip == value
    {
      zip := value;
    }
  }

  /** The five organization types; the string value of each is its own name. */
  datatype OrganizationType =
    | COMMERCIAL
    | PUBLIC
    | GOVERNMENT
    | PRIVATE_LIMITED_COMPANY
    | OPEN_JOINT_STOCK_COMPANY
  {
    function Value(): string {
      match this
      case COMMERCIAL => "COMMERCIAL"
      case PUBLIC => "PUBLIC"
      case GOVERNMENT => "GOVERNMENT"
      case PRIVATE_LIMITED_COMPANY => "PRIVATE_LIMITED_COMPANY"
      case OPEN_JOINT_STOCK_COMPANY => "OPEN_JOINT_STOCK_COMPANY"
    }
  }

  /** The declaration order of the enum. */
  const AllTypes: seq<OrganizationType> :=
    [COMMERCIAL, PUBLIC, GOVERNMENT, PRIVATE_LIMITED_COMPANY, OPEN_JOINT_STOCK_COMPANY]

  /** Exactly five members, each listed once, and no two share a string value. */
  lemma TypesAreFiveDistinct()
    ensures |AllTypes| == 5
    ensures forall t: OrganizationType :: t in AllTypes
    ensures forall i, j :: 0 <= i < j < |AllTypes| ==> AllTypes[i].Value() != AllTypes[j].Value()
  {
    forall t: OrganizationType ensures t in AllTypes {
      match t
      case COMMERCIAL => assert AllTypes[0] == t;
      case PUBLIC => assert AllTypes[1] == t;
      case GOVERNMENT => assert AllTypes[2] == t;
      case PRIVATE_LIMITED_COMPANY => assert AllTypes[3] == t;
      case OPEN_JOINT_STOCK_COMPANY => assert AllTypes[4] == t;
    }
  }

  /** `creationDate` is a luxon DateTime; the model keeps it as its ISO text. */
  type DateTime = string

  class Organization {
    const id: int
    var name: string
    var coordinates: Coordinates
    var creationDate: DateTime
    var address: Address
    var annualTurnover: int
    var employeesCount: int
    var rating: int
    var fullName: string
    var orgType: Option<OrganizationType>
    var postalAddress: Address
    var ownerId: int

    /** Each argument goes to its own field; the type given here is never null. */
    constructor (id: int, name: string, coordinates: Coordinates, creationDate: DateTime,
                 address: Address, annualTurnover: int, employeesCount: int, rating: int,
                 fullName: string, orgType: OrganizationType, postalAddress: Address, ownerId: int)
      ensures this.id == id && this.name == name && this.coordinates == coordinates
      ensures this.creationDate == creationDate && this.address == address
      ensures this.annualTurnover == annualTurnover && this.employeesCount == employeesCount
      ensures this.rating == rating && this.fullName == fullName
      ensures this.orgType == Some(orgType) && this.postalAddress == postalAddress
      ensures this.ownerId == ownerId
    {
      this.id := id;
      this.name := name;
      this.coordinates := coordinates;
      this.creationDate := creationDate;
      this.address := address;
      this.annualTurnover := annualTurnover;
      this.employeesCount := employeesCount;
      this.rating := rating;
      this.fullName := fullName;
      this.orgType := Some(orgType);
      this.postalAddress := postalAddress;
      this.ownerId := ownerId;
    }

    method SetName(value: string)
      modifies this`name
      ensures name == value
    {
      name := value;
    }

    method SetCoordinates(value: Coordinates)
      modifies this`coordinates
      ensures coordinates == value
    {
      coordinates := value;
    }

    method SetCreationDate(value: DateTime)
      modifies this`creationDate
      ensures creationDate == value
    {
      creationDate := value;
    }

    method SetAddress(value: Address)
      modifies this`address
      ensures address == value
    {
      address := value;
    }

    method SetAnnualTurnover(value: int)
      modifies this`annualTurnover
      ensures annualTurnover == value
    {
      annualTurnover := value;
    }

    method SetEmployeesCount(value: int)
      modifies this`employeesCount
      ensures employeesCount == value
    {
      employeesCount := value;
    }

    method SetRating(value: int)
      modifies this`rating
      ensures rating == value
    {
      rating := value;
    }

    method SetFullName(value: string)
      modifies this`fullName
      ensures fullName == value
    {
      fullName := value;
    }

    /** `set type` accepts null (None), although the constructor never stores it. */
    method SetType(value: Option<OrganizationType>)
      modifies this`orgType
      ensures orgType == value
    {
      orgType := value;
    }

    method SetPostalAddress(value: Address)
      modifies this`postalAddress
      ensures postalAddress == value
    {
      postalAddress := value;
    }

    method SetOwnerId(value: int)
      modifies this`ownerId
      ensures ownerId == value
    {
      ownerId := value;
    }
  }

  /** What a caller can rely on after the setters: each changed its own field and nothing else, and the type can end up null. */
  method SettersChangeOnlyTheirField(o: Organization, c: Coordinates)
    modifies o, c
  {
    var name, rating, id := o.name, o.rating, o.id;
    o.SetOwnerId(7);
    o.SetType(None);
    assert o.name == name && o.rating == rating && o.id == id;
    assert o.ownerId == 7 && o.orgType == None;
    var y := c.y;
    var outcome := c.SetX(2.5);
    assert outcome == Fail(NumberFormatException(2.5));
    outcome := c.SetX(1000.0);
    assert outcome == Pass && c.x == 1000 && c.y == y;
  }
}
