/** The test-side record builder: a mutable object holding the nine fields of the person it will
    build, each overwritten in place by its setter. */
module TestUtil {
  import opened PersonModel

  const DEFAULT_NAME: string := "Amy Bee"
  const DEFAULT_PHONE: string := "85355255"
  const DEFAULT_EMAIL: string := "amy@gmail.com"
  const DEFAULT_ADDRESS: string := "123, Jurong West Ave 6, #08-111"
  const DEFAULT_ORGAN: string := "kidney"
  const DEFAULT_BLOODTYPE: string := "O+"
  const DEFAULT_PRIORITY: int := 1

  /** `SampleDataUtil.getTagSet`: one tag per given string. */
  function GetTagSet(names: seq<string>): (tags: set<Tag>)
    ensures forall t :: t in tags <==> t.tagName in names
  {
    set n | n in names :: Tag(n)
  }

  class PersonBuilder {
    var name: Name
    var phone: Phone
    var email: Email
    var emergencyContact: Option<EmergencyContact>
    var address: Address
    var organ: Organ
    var bloodType: BloodType
    var tags: set<Tag>
    var priority: Priority

    /** The person the current fields describe. */
    function Current(): Person
      reads this
    {
      Person(name, phone, email, address, organ, bloodType, priority, tags, emergencyContact)
    }

    /** A builder holding the default details, no tags and no emergency contact. */
    constructor ()
      ensures name == Name(DEFAULT_NAME) && phone == Phone(DEFAULT_PHONE) && email == Email(DEFAULT_EMAIL)
      ensures address == Address(DEFAULT_ADDRESS) && organ == Organ(DEFAULT_ORGAN)
      ensures bloodType == BloodType(DEFAULT_BLOODTYPE) && priority == Priority(DEFAULT_PRIORITY)
      ensures tags == {} && emergencyContact == None
    {
      name := Name(DEFAULT_NAME);
      phone := Phone(DEFAULT_PHONE);
      email := Email(DEFAULT_EMAIL);
      address := Address(DEFAULT_ADDRESS);
      organ := Organ(DEFAULT_ORGAN);
      bloodType := BloodType(DEFAULT_BLOODTYPE);
      tags := {};
      priority := Priority(DEFAULT_PRIORITY);
      emergencyContact := None;
    }

    /** A builder holding every field of `personToCopy`; the tag set is a value, so the builder
        never shares it with the person. */
    constructor Copy(personToCopy: Person)
      ensures Current() == personToCopy
    {
      name := personToCopy.name;
      phone := personToCopy.phone;
      email := personToCopy.email;
      address := personToCopy.address;
      organ := personToCopy.organ;
      bloodType := personToCopy.bloodType;
      tags := personToCopy.tags;
      priority := personToCopy.priority;
      emergencyContact := personToCopy.emergencyContact;
    }

    method WithName(newName: string) returns (self: PersonBuilder)
      modifies this
      ensures self == this
      ensures Current() == old(Current()).(name := Name(newName))
    {
      name := Name(newName);
      self := this;
    }

    /** Replaces the whole tag set. */
    method WithTags(names: seq<string>) returns (self: PersonBuilder)
      modifies this
      ensures self == this
      ensures Current() == old(Current()).(tags := GetTagSet(names))
    {
      tags := GetTagSet(names);
      self := this;
    }

    method WithAddress(newAddress: string) returns (self: PersonBuilder)
      modifies this
      ensures self == this
      ensures Current() == old(Current()).(address := Address(newAddress))
    {
      address := Address(newAddress);
      self := this;
    }

    method WithPhone(newPhone: string) returns (self: PersonBuilder)
      modifies this
      ensures self == this
      ensures Current() == old(Current()).(phone := Phone(newPhone))
    {
      phone := Phone(newPhone);
      self := this;
    }

    method WithEmail(newEmail: string) returns (self: PersonBuilder)
      modifies this
      ensures self == this
      ensures Current() == old(Current()).(email := Email(newEmail))
    {
      email := Email(newEmail);
      self := this;
    }

    method WithOrgan(newOrgan: string) returns (self: PersonBuilder)
      modifies this
      ensures self == this
      ensures Current() == old(Current()).(organ := Organ(newOrgan))
    {
      organ := Organ(newOrgan);
      self := this;
    }

    method WithBloodType(newBloodType: string) returns (self: PersonBuilder)
      modifies this
      ensures self == this
      ensures Current() == old(Current()).(bloodType := BloodType(newBloodType))
    {
      bloodType := BloodType(newBloodType);
      self := this;
    }

    method WithPriority(newPriority: int) returns (self: PersonBuilder)
      modifies this
      ensures self == this
      ensures Current() == old(Current()).(priority := Priority(newPriority))
    {
      priority := Priority(newPriority);
      self := this;
    }

    /** Sets the emergency contact to exactly `contact`, which may be absent. */
    method WithEmergencyContact(contact: Option<EmergencyContact>) returns (self: PersonBuilder)
      modifies this
      ensures self == this
      ensures Current() == old(Current()).(emergencyContact := contact)
    {
      emergencyContact := contact;
      self := this;
    }

    /** The overload taking the contact's name, phone and relationship as strings. */
    method WithEmergencyContactDetails(ecName: string, ecPhone: string, relationship: string)
      returns (self: PersonBuilder)
      modifies this
      ensures self == this
      ensures Current() == old(Current()).(emergencyContact :=
        Some(EmergencyContact(Name(ecName), Phone(ecPhone), relationship)))
    {
      emergencyContact := Some(EmergencyContact(Name(ecName), Phone(ecPhone), relationship));
      self := this;
    }

    /** The person with the current fields, in the order the record takes them; the builder is
        left as it was. */
    method Build() returns (p: Person)
      ensures p == Person(name, phone, email, address, organ, bloodType, priority, tags, emergencyContact)
    {
      p := Person(name, phone, email, address, organ, bloodType, priority, tags, emergencyContact);
    }
  }

  /** Copying a person into a builder and building straight away gives back that person. */
  method CopyThenBuild(source: Person) returns (copy: Person)
    ensures copy == source
  {
    var builder := new PersonBuilder.Copy(source);
    copy := builder.Build();
  }

  /** A chain of setters on a default builder changes only the fields it sets, and a later
      `WithTags` replaces rather than extends the tags. */
  method DefaultWithNameAndTags(newName: string, first: seq<string>, second: seq<string>)
    returns (p: Person)
    ensures p.name == Name(newName) && p.tags == GetTagSet(second)
    ensures p.phone == Phone(DEFAULT_PHONE) && p.email == Email(DEFAULT_EMAIL)
    ensures p.address == Address(DEFAULT_ADDRESS) && p.organ == Organ(DEFAULT_ORGAN)
    ensures p.bloodType == BloodType(DEFAULT_BLOODTYPE) && p.priority == Priority(DEFAULT_PRIORITY)
    ensures p.emergencyContact == None
  {
    var builder := new PersonBuilder();
    var b := builder.WithName(newName);
    b := b.WithTags(first);
    b := b.WithTags(second);
    p := b.Build();
  }
}
