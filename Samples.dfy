/**
  The sample domain of the program (Address, Country, PhoneNumber, Person),
  the descriptors its builders assemble, and the text they produce for the
  demonstration data.
 */
module Samples {
  import opened Wrappers
  import opened Markup
  import opened Formatting
  import opened Rendering
  import opened Descriptors

  datatype Address = Address(street: string, city: string)
  datatype Country = Country(name: string, areaCode: int)
  datatype PhoneNumber = PhoneNumber(country: Country, number: int)
  datatype Person = Person(firstName: string, lastName: string, homeAddress: Address, workAddress: Address,
                           citizenOf: Country, mobilePhone: PhoneNumber)

  /** The rendering of a two-field list is the first field's rendering, then the second's. */
  lemma {:induction false} TwoFields<T>(first: Field<T>, second: Field<T>, instance: T)
    ensures RenderFields([first, second], instance) == RenderField(first, instance) + RenderField(second, instance)
  {
    assert [first, second][..1] == [first] && [first, second][1] == second;
    assert [first][..0] == [] && [first][0] == first;
    assert RenderFields([first], instance) == RenderField(first, instance);
  }

  /**
    The line a field tagged `tag` writes for `value`: the closed form of
    RenderField's tagged case that Rendering.TaggedFieldLine gives, named here
    so the sample bodies can be written line by line.
   */
  function LeafLine(tag: string, value: string): string
  {
    OpenTag(tag) + Sanitize(value) + CloseTag(tag) + NewLine
  }

  /** What the address descriptor writes between its open and close lines. */
  function AddressBody(address: Address): string
  {
    LeafLine("Street", address.street) + LeafLine("City", address.city)
  }

  /** What the country descriptor writes between its open and close lines. */
  function CountryBody(country: Country): string
  {
    LeafLine("Name", country.name) + LeafLine("AreaCode", IntToString(country.areaCode))
  }

  method GetAddressDescriptor() returns (descriptor: RootDescriptor<Address>)
    ensures fresh(descriptor) && descriptor.tagName == "Address"
    ensures forall address :: RenderFields(descriptor.fields, address) == AddressBody(address)
  {
    descriptor := new RootDescriptor("Address");
    var street := StringDescriptionField(Some("Street"), (a: Address) => a.street);
    var city := StringDescriptionField(Some("City"), (a: Address) => a.city);
    descriptor.RegisterDescriptionField(street);
    descriptor.RegisterDescriptionField(city);
    assert descriptor.fields == [street, city];
    forall address
      ensures RenderFields(descriptor.fields, address) == AddressBody(address)
    {
      TwoFields(street, city, address);
      TaggedFieldLine(street, "Street", address);
      TaggedFieldLine(city, "City", address);
    }
  }

  method GetCountryDescriptor() returns (descriptor: RootDescriptor<Country>)
    ensures fresh(descriptor) && descriptor.tagName == "Country"
    ensures forall country :: RenderFields(descriptor.fields, country) == CountryBody(country)
  {
    descriptor := new RootDescriptor("Country");
    var name := StringDescriptionField(Some("Name"), (c: Country) => c.name);
    var areaCode := IntDescriptionField(Some("AreaCode"), (c: Country) => c.areaCode);
    descriptor.RegisterDescriptionField(name);
    descriptor.RegisterDescriptionField(areaCode);
    assert descriptor.fields == [name, areaCode];
    forall country
      ensures RenderFields(descriptor.fields, country) == CountryBody(country)
    {
      TwoFields(name, areaCode, country);
      TaggedFieldLine(name, "Name", country);
      TaggedFieldLine(areaCode, "AreaCode", country);
    }
  }

  /** A country rendered as an element named `tag`. */
  function CountryElement(tag: string, country: Country): string
  {
    OpenLine(tag) + CountryBody(country) + CloseLine(tag)
  }

  /** An address rendered as an element named `tag`. */
  function AddressElement(tag: string, address: Address): string
  {
    OpenLine(tag) + AddressBody(address) + CloseLine(tag)
  }

  /** What the phone-number descriptor writes between its open and close lines. */
  function PhoneNumberBody(phoneNumber: PhoneNumber): string
  {
    CountryElement("Country", phoneNumber.country) + LeafLine("Number", IntToString(phoneNumber.number))
  }

  /** A phone number rendered as an element named `tag`. */
  function PhoneNumberElement(tag: string, phoneNumber: PhoneNumber): string
  {
    OpenLine(tag) + PhoneNumberBody(phoneNumber) + CloseLine(tag)
  }

  /** What the person descriptor writes between its open and close lines. */
  function PersonBody(person: Person): string
  {
    LeafLine("FirstName", person.firstName) + LeafLine("LastName", person.lastName)
    + AddressElement("HomeAddress", person.homeAddress) + AddressElement("WorkAddress", person.workAddress)
    + CountryElement("CitizenOf", person.citizenOf) + PhoneNumberElement("MobilePhone", person.mobilePhone)
  }

  /** A composite field over a fresh address descriptor, named `tag`. */
  method AddressField<T(!new)>(tag: string, valueGetter: T -> Address) returns (field: Field<T>)
    ensures forall x :: RenderField(field, x) == AddressElement(tag, valueGetter(x))
  {
    var addressDescriptor := GetAddressDescriptor();
    field := RootDescriptionField(Some(tag), addressDescriptor, valueGetter);
    forall x
      ensures RenderField(field, x) == AddressElement(tag, valueGetter(x))
    {
      RootDescriptionFieldRendering(Some(tag), addressDescriptor, valueGetter, x);
    }
  }

  /** A composite field over a fresh country descriptor, named `tag`. */
  method CountryField<T(!new)>(tag: string, valueGetter: T -> Country) returns (field: Field<T>)
    ensures forall x :: RenderField(field, x) == CountryElement(tag, valueGetter(x))
  {
    var countryDescriptor := GetCountryDescriptor();
    field := RootDescriptionField(Some(tag), countryDescriptor, valueGetter);
    forall x
      ensures RenderField(field, x) == CountryElement(tag, valueGetter(x))
    {
      RootDescriptionFieldRendering(Some(tag), countryDescriptor, valueGetter, x);
    }
  }

  /** A composite field over a fresh phone-number descriptor, named `tag`. */
  method PhoneNumberField<T(!new)>(tag: string, valueGetter: T -> PhoneNumber) returns (field: Field<T>)
    ensures forall x :: RenderField(field, x) == PhoneNumberElement(tag, valueGetter(x))
  {
    var phoneNumberDescriptor := GetPhoneNumberDescriptor();
    field := RootDescriptionField(Some(tag), phoneNumberDescriptor, valueGetter);
    forall x
      ensures RenderField(field, x) == PhoneNumberElement(tag, valueGetter(x))
    {
      RootDescriptionFieldRendering(Some(tag), phoneNumberDescriptor, valueGetter, x);
    }
  }

  method GetPhoneNumberDescriptor() returns (descriptor: RootDescriptor<PhoneNumber>)
    ensures fresh(descriptor) && descriptor.tagName == "PhoneNumber"
    ensures forall phoneNumber :: RenderFields(descriptor.fields, phoneNumber) == PhoneNumberBody(phoneNumber)
  {
    descriptor := new RootDescriptor("PhoneNumber");
    var country := CountryField("Country", (p: PhoneNumber) => p.country);
    descriptor.RegisterDescriptionField(country);
    var number := IntDescriptionField(Some("Number"), (p: PhoneNumber) => p.number);
    descriptor.RegisterDescriptionField(number);
    assert descriptor.fields == [country, number];
    forall phoneNumber
      ensures RenderFields(descriptor.fields, phoneNumber) == PhoneNumberBody(phoneNumber)
    {
      TwoFields(country, number, phoneNumber);
      TaggedFieldLine(number, "Number", phoneNumber);
    }
  }

  /** The rendering of a six-field list is the six fields' renderings in order. */
  lemma {:induction false} SixFields<T>(f1: Field<T>, f2: Field<T>, f3: Field<T>, f4: Field<T>, f5: Field<T>, f6: Field<T>, instance: T)
    ensures RenderFields([f1, f2, f3, f4, f5, f6], instance)
         == RenderField(f1, instance) + RenderField(f2, instance) + RenderField(f3, instance)
          + RenderField(f4, instance) + RenderField(f5, instance) + RenderField(f6, instance)
  {
    TwoFields(f1, f2, instance);
    assert [f1, f2, f3] == [f1, f2] + [f3];
    RenderFieldsRegistered([f1, f2], f3, instance);
    assert [f1, f2, f3, f4] == [f1, f2, f3] + [f4];
    RenderFieldsRegistered([f1, f2, f3], f4, instance);
    assert [f1, f2, f3, f4, f5] == [f1, f2, f3, f4] + [f5];
    RenderFieldsRegistered([f1, f2, f3, f4], f5, instance);
    assert [f1, f2, f3, f4, f5, f6] == [f1, f2, f3, f4, f5] + [f6];
    RenderFieldsRegistered([f1, f2, f3, f4, f5], f6, instance);
  }

  method GetPersonDescriptor() returns (descriptor: RootDescriptor<Person>)
    ensures fresh(descriptor) && descriptor.tagName == "Person"
    ensures forall person :: RenderFields(descriptor.fields, person) == PersonBody(person)
  {
    descriptor := new RootDescriptor("Person");
    var firstName := StringDescriptionField(Some("FirstName"), (p: Person) => p.firstName);
    descriptor.RegisterDescriptionField(firstName);
    var lastName := StringDescriptionField(Some("LastName"), (p: Person) => p.lastName);
    descriptor.RegisterDescriptionField(lastName);
    var homeAddress := AddressField("HomeAddress", (p: Person) => p.homeAddress);
    descriptor.RegisterDescriptionField(homeAddress);
    var workAddress := AddressField("WorkAddress", (p: Person) => p.workAddress);
    descriptor.RegisterDescriptionField(workAddress);
    var citizenOf := CountryField("CitizenOf", (p: Person) => p.citizenOf);
    descriptor.RegisterDescriptionField(citizenOf);
    var mobilePhone := PhoneNumberField("MobilePhone", (p: Person) => p.mobilePhone);
    descriptor.RegisterDescriptionField(mobilePhone);
    assert descriptor.fields == [firstName, lastName, homeAddress, workAddress, citizenOf, mobilePhone];
    forall person
      ensures RenderFields(descriptor.fields, person) == PersonBody(person)
    {
      SixFields(firstName, lastName, homeAddress, workAddress, citizenOf, mobilePhone, person);
      TaggedFieldLine(firstName, "FirstName", person);
      TaggedFieldLine(lastName, "LastName", person);
    }
  }

  /** The decimal text of the area code 420. */
  lemma {:induction false} IntToString420()
    ensures IntToString(420) == "420"
  {
    assert NatToString(4) == "4";
    assert NatToString(42) == "42";
  }

  lemma {:induction false} CountryOpenLine()
    ensures OpenLine("Country") == "<Country>\n"
  {
  }

  lemma {:induction false} CountryCloseLine()
    ensures CloseLine("Country") == "</Country>\n"
  {
  }

  lemma {:induction false} NameSanitized()
    ensures Sanitize("Czech Republic") == "Czech Republic"
  {
    SanitizeLeavesPlainText("Czech Republic");
  }

  lemma {:induction false} NameOpenTag()
    ensures OpenTag("Name") == "<Name>"
  {
  }

  lemma {:induction false} NameCloseLine()
    ensures CloseTag("Name") + NewLine == "</Name>\n"
  {
  }

  lemma {:induction false} NameText()
    ensures "<Name>" + "Czech Republic" + "</Name>\n" == "<Name>Czech Republic</Name>\n"
  {
  }

  /** The name line of the demonstration country: its name has no angle bracket, so it is written as it is. */
  lemma {:induction false} NameLine()
    ensures LeafLine("Name", "Czech Republic") == "<Name>Czech Republic</Name>\n"
  {
    NameSanitized();
    NameOpenTag();
    NameCloseLine();
    NameText();
  }

  lemma {:induction false} AreaCodeOpenTag()
    ensures OpenTag("AreaCode") == "<AreaCode>"
  {
  }

  lemma {:induction false} AreaCodeCloseLine()
    ensures CloseTag("AreaCode") + NewLine == "</AreaCode>\n"
  {
  }

  lemma {:induction false} AreaCodeText()
    ensures "<AreaCode>" + "420" + "</AreaCode>\n" == "<AreaCode>420</AreaCode>\n"
  {
  }

  /** The area-code line of the demonstration country: the integer in decimal between its tags. */
  lemma {:induction false} AreaCodeLine()
    ensures LeafLine("AreaCode", IntToString(420)) == "<AreaCode>420</AreaCode>\n"
  {
    IntToString420();
    SanitizeLeavesPlainText("420");
    AreaCodeOpenTag();
    AreaCodeCloseLine();
    AreaCodeText();
  }

  /** The country of the demonstration data, rendered under its descriptor's own tag. */
  lemma {:induction false} CzechRepublicElement()
    ensures CountryElement("Country", Country("Czech Republic", 420))
         == "<Country>\n" + "<Name>Czech Republic</Name>\n" + "<AreaCode>420</AreaCode>\n" + "</Country>\n"
  {
    CountryOpenLine();
    NameLine();
    AreaCodeLine();
    CountryCloseLine();
    AppendAssoc("<Country>\n", "<Name>Czech Republic</Name>\n", "<AreaCode>420</AreaCode>\n");
  }

  /** Any country, written by the country descriptor, is one element with its name line then its area-code line. */
  method SerializeCountry(country: Country) returns (text: string)
    ensures text == CountryElement("Country", country)
  {
    var descriptor := GetCountryDescriptor();
    var writer := new StringWriter();
    descriptor.Serialize(writer, country);
    text := writer.ToString();
  }

  /** The Czech Republic example: one line per field, the area code in decimal. */
  method SerializeCzechRepublic() returns (text: string)
    ensures text == "<Country>\n" + "<Name>Czech Republic</Name>\n" + "<AreaCode>420</AreaCode>\n" + "</Country>\n"
  {
    text := SerializeCountry(Country("Czech Republic", 420));
    CzechRepublicElement();
  }

  /** Any person, written by the person descriptor, is one element holding the six fields in registration order. */
  method SerializePerson(person: Person) returns (text: string)
    ensures text == OpenLine("Person") + PersonBody(person) + CloseLine("Person")
  {
    var descriptor := GetPersonDescriptor();
    var writer := new StringWriter();
    descriptor.Serialize(writer, person);
    text := writer.ToString();
  }
}
