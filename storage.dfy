/** The persistence adapter: a person in its stored form, where every field may be null, and the
    conversion of that form back to a person or to the message of the problem found. */
module Storage {
  import opened PersonModel

  /** The stored form of a person (`None` is a null field): one string per field, an integer
      priority, one string per tag, and three independently nullable emergency-contact keys. */
  datatype JsonAdaptedPerson = JsonAdaptedPerson(
    name: Option<string>,
    phone: Option<string>,
    email: Option<string>,
    address: Option<string>,
    organ: Option<string>,
    bloodType: Option<string>,
    priority: Option<int>,
    tags: seq<string>,
    emergencyName: Option<string>,
    emergencyPhone: Option<string>,
    emergencyRelation: Option<string>)

  /** The field names the missing-field message gives for the halves of an emergency contact. */
  const EMERGENCY_NAME_FIELD: string := "EmergencyContact Name"
  const EMERGENCY_PHONE_FIELD: string := "EmergencyContact Phone"

  /** The stored form of `source`: each field in its string or integer form, the tags in the order
      `tagOrder` enumerates them (the iteration order of the tag set), and all three
      emergency-contact keys null when there is no emergency contact. */
  function FromPerson(source: Person, tagOrder: seq<Tag>): (j: JsonAdaptedPerson)
    requires forall t :: t in source.tags <==> t in tagOrder
    ensures && j.name.Some? && j.phone.Some? && j.email.Some? && j.address.Some?
            && j.organ.Some? && j.bloodType.Some? && j.priority.Some?
    ensures |j.tags| == |tagOrder|
    ensures source.emergencyContact.None? <==>
      j.emergencyName.None? && j.emergencyPhone.None? && j.emergencyRelation.None?
  {
    var ec := source.emergencyContact;
    JsonAdaptedPerson(
      Some(source.name.fullName), Some(source.phone.value), Some(source.email.value),
      Some(source.address.value), Some(source.organ.value), Some(source.bloodType.value),
      Some(source.priority.value), seq(|tagOrder|, i requires 0 <= i < |tagOrder| => tagOrder[i].tagName),
      if ec.Some? then Some(ec.value.name.fullName) else None,
      if ec.Some? then Some(ec.value.phone.value) else None,
      if ec.Some? then Some(ec.value.relationship) else None)
  }

  /** A mandatory text field: null is a missing field named by its class, a present value must
      satisfy its class's predicate. */
  function RequiredText(c: Constraints, field: FieldClass, value: Option<string>): Result<string> {
    match value
    case None => Err(MissingField(field.SimpleName()))
    case Some(s) => if c.isValid(field, s) then Ok(s) else Err(ConstraintsOf(field))
  }

  /** A stored tag string is kept as it is when valid. */
  function TagToModel(c: Constraints, s: string): Result<Tag> {
    if c.isValid(TagClass, s) then Ok(Tag(s)) else Err(ConstraintsOf(TagClass))
  }

  function TagsToModel(c: Constraints, names: seq<string>): Result<set<Tag>> {
    CollectTags(s => TagToModel(c, s), names)
  }

  /** The emergency contact: absent when all three keys are null; otherwise its name and phone
      must both be there and valid, and a null relation reads as "". */
  function ContactToModel(c: Constraints, j: JsonAdaptedPerson): Result<Option<EmergencyContact>> {
    if j.emergencyName.None? && j.emergencyPhone.None? && j.emergencyRelation.None? then Ok(None)
    else if j.emergencyName.None? then Err(MissingField(EMERGENCY_NAME_FIELD))
    else if j.emergencyPhone.None? then Err(MissingField(EMERGENCY_PHONE_FIELD))
    else if !c.isValid(NameClass, j.emergencyName.value) then Err(ConstraintsOf(NameClass))
    else if !c.isValid(PhoneClass, j.emergencyPhone.value) then Err(ConstraintsOf(PhoneClass))
    else
      Ok(Some(EmergencyContact(Name(j.emergencyName.value), Phone(j.emergencyPhone.value),
                               j.emergencyRelation.GetOr(""))))
  }

  /** `JsonAdaptedPerson.toModelType`. */
  function ToModelType(c: Constraints, j: JsonAdaptedPerson): (r: Result<Person>)
    ensures r.Ok? ==> c.ValidPerson(r.value)
  {
    var tags :- TagsToModel(c, j.tags);
    var name :- RequiredText(c, NameClass, j.name);
    var phone :- RequiredText(c, PhoneClass, j.phone);
    var email :- RequiredText(c, EmailClass, j.email);
    var address :- RequiredText(c, AddressClass, j.address);
    var organ :- RequiredText(c, OrganClass, j.organ);
    var bloodType :- RequiredText(c, BloodTypeClass, j.bloodType);
    var priority :-
      match j.priority
      case None => Err(MissingField(PriorityClass.SimpleName()))
      case Some(n) => if c.isValidPriority(n) then Ok(n) else Err(ConstraintsOf(PriorityClass));
    var emergencyContact :- ContactToModel(c, j);
    Ok(Person(Name(name), Phone(phone), Email(email), Address(address), Organ(organ),
              BloodType(bloodType), Priority(priority), tags, emergencyContact))
  }

  // ---------------------------------------------------------------------------------------------
  // When a stored person converts.

  /** The mandatory text fields, whose null value is reported as a missing field. */
  const MANDATORY_TEXT: set<FieldClass> :=
    {NameClass, PhoneClass, EmailClass, AddressClass, OrganClass, BloodTypeClass}

  predicate PresentAndValid(c: Constraints, field: FieldClass, value: Option<string>) {
    value.Some? && c.isValid(field, value.value)
  }

  /** Every field but the emergency contact is present and valid, and so is every tag. */
  predicate MainFieldsConvertible(c: Constraints, j: JsonAdaptedPerson) {
    && PresentAndValid(c, NameClass, j.name)
    && PresentAndValid(c, PhoneClass, j.phone)
    && PresentAndValid(c, EmailClass, j.email)
    && PresentAndValid(c, AddressClass, j.address)
    && PresentAndValid(c, OrganClass, j.organ)
    && PresentAndValid(c, BloodTypeClass, j.bloodType)
    && j.priority.Some? && c.isValidPriority(j.priority.value)
    && forall i | 0 <= i < |j.tags| :: c.isValid(TagClass, j.tags[i])
  }

  /** The emergency contact is wholly absent, or its name and phone are present and valid. */
  predicate ContactConvertible(c: Constraints, j: JsonAdaptedPerson) {
    || (j.emergencyName.None? && j.emergencyPhone.None? && j.emergencyRelation.None?)
    || (PresentAndValid(c, NameClass, j.emergencyName) && PresentAndValid(c, PhoneClass, j.emergencyPhone))
  }

  predicate Convertible(c: Constraints, j: JsonAdaptedPerson) {
    MainFieldsConvertible(c, j) && ContactConvertible(c, j)
  }

  /** `j` with the stored value of a mandatory text field replaced. */
  function WithField(j: JsonAdaptedPerson, field: FieldClass, value: Option<string>): JsonAdaptedPerson {
    match field
    case NameClass => j.(name := value)
    case PhoneClass => j.(phone := value)
    case EmailClass => j.(email := value)
    case AddressClass => j.(address := value)
    case OrganClass => j.(organ := value)
    case BloodTypeClass => j.(bloodType := value)
    case _ => j
  }

  lemma TagsToModelMeaning(c: Constraints, names: seq<string>)
    ensures TagsToModel(c, names).Ok? <==>
      forall i | 0 <= i < |names| :: c.isValid(TagClass, names[i])
    ensures TagsToModel(c, names).Ok? ==>
      forall t :: t in TagsToModel(c, names).value <==>
        exists i | 0 <= i < |names| :: t == Tag(names[i])
  {
    var check := s => TagToModel(c, s);
    var res := CollectTags(check, names);
    assert forall i | 0 <= i < |names| :: check(names[i]).Ok? <==> c.isValid(TagClass, names[i]);
    if res.Ok? {
      forall t ensures t in res.value <==> exists i | 0 <= i < |names| :: t == Tag(names[i]) {
        if t in res.value {
          var i :| 0 <= i < |names| && check(names[i]) == Ok(t);
        } else {
          forall i | 0 <= i < |names| ensures t != Tag(names[i]) {
            assert check(names[i]) == Ok(Tag(names[i]));
          }
        }
      }
    }
  }

  /** Conversion succeeds exactly when every field is convertible, and gives the person holding
      exactly the stored values, which is a valid person. */
  lemma ToModelTypeSucceedsIff(c: Constraints, j: JsonAdaptedPerson)
    ensures ToModelType(c, j).Ok? <==> Convertible(c, j)
    ensures ToModelType(c, j).Ok? ==>
      var p := ToModelType(c, j).value;
      && Some(p.name.fullName) == j.name && Some(p.phone.value) == j.phone
      && Some(p.email.value) == j.email && Some(p.address.value) == j.address
      && Some(p.organ.value) == j.organ && Some(p.bloodType.value) == j.bloodType
      && Some(p.priority.value) == j.priority
      && (forall t :: t in p.tags <==> exists i | 0 <= i < |j.tags| :: t == Tag(j.tags[i]))
      && (j.emergencyName.None? && j.emergencyPhone.None? && j.emergencyRelation.None? ==>
            p.emergencyContact == None)
      && (j.emergencyName.Some? ==> p.emergencyContact == Some(EmergencyContact(
            Name(j.emergencyName.value), Phone(j.emergencyPhone.value), j.emergencyRelation.GetOr(""))))
      && c.ValidPerson(p)
  {
    TagsToModelMeaning(c, j.tags);
  }

  /** Converting the stored form of a valid person gives back that person, whatever order the
      tags were written in. */
  lemma RoundTrip(c: Constraints, p: Person, tagOrder: seq<Tag>)
    requires c.ValidPerson(p)
    requires forall t :: t in p.tags <==> t in tagOrder
    ensures ToModelType(c, FromPerson(p, tagOrder)) == Ok(p)
  {
    var j := FromPerson(p, tagOrder);
    assert forall i | 0 <= i < |j.tags| :: j.tags[i] == tagOrder[i].tagName && tagOrder[i] in p.tags;
    TagsToModelMeaning(c, j.tags);
    var tags := TagsToModel(c, j.tags).value;
    forall t ensures t in tags <==> t in p.tags {
      if t in p.tags {
        var i :| 0 <= i < |tagOrder| && tagOrder[i] == t;
        assert t == Tag(j.tags[i]);
      }
    }
    assert tags == p.tags;
  }

  /** A null mandatory text field, all else convertible, is reported as missing under its class
      name. */
  lemma NullFieldIsMissing(c: Constraints, j: JsonAdaptedPerson, field: FieldClass)
    requires Convertible(c, j) && field in MANDATORY_TEXT
    ensures ToModelType(c, WithField(j, field, None)) == Err(MissingField(field.SimpleName()))
  {
    TagsToModelMeaning(c, j.tags);
  }

  /** A present but invalid mandatory text field, all else convertible, is reported with its
      class's constraint message. */
  lemma InvalidFieldIsReported(c: Constraints, j: JsonAdaptedPerson, field: FieldClass, s: string)
    requires Convertible(c, j) && field in MANDATORY_TEXT && !c.isValid(field, s)
    ensures ToModelType(c, WithField(j, field, Some(s))) == Err(ConstraintsOf(field))
  {
    TagsToModelMeaning(c, j.tags);
  }

  /** One invalid tag among any others makes the conversion fail. */
  lemma InvalidTagFails(c: Constraints, j: JsonAdaptedPerson, i: nat)
    requires i < |j.tags| && !c.isValid(TagClass, j.tags[i])
    ensures ToModelType(c, j).Err?
  {
    TagsToModelMeaning(c, j.tags);
  }

  /** An emergency-contact name without phone and relation reports the phone as missing. */
  lemma ContactNameOnly(c: Constraints, j: JsonAdaptedPerson, ecName: string)
    requires MainFieldsConvertible(c, j) && c.isValid(NameClass, ecName)
    ensures ToModelType(c, j.(emergencyName := Some(ecName), emergencyPhone := None, emergencyRelation := None))
         == Err(MissingField(EMERGENCY_PHONE_FIELD))
  {
    TagsToModelMeaning(c, j.tags);
  }

  /** An emergency-contact phone without name and relation reports the name as missing. */
  lemma ContactPhoneOnly(c: Constraints, j: JsonAdaptedPerson, ecPhone: string)
    requires MainFieldsConvertible(c, j) && c.isValid(PhoneClass, ecPhone)
    ensures ToModelType(c, j.(emergencyName := None, emergencyPhone := Some(ecPhone), emergencyRelation := None))
         == Err(MissingField(EMERGENCY_NAME_FIELD))
  {
    TagsToModelMeaning(c, j.tags);
  }

  /** An invalid emergency-contact name with a valid phone is reported with the Name message. */
  lemma InvalidContactName(c: Constraints, j: JsonAdaptedPerson, ecName: string, ecPhone: string)
    requires MainFieldsConvertible(c, j)
    requires !c.isValid(NameClass, ecName) && c.isValid(PhoneClass, ecPhone)
    ensures ToModelType(c, j.(emergencyName := Some(ecName), emergencyPhone := Some(ecPhone)))
         == Err(ConstraintsOf(NameClass))
  {
    TagsToModelMeaning(c, j.tags);
  }

  /** A valid emergency-contact name with an invalid phone is reported with the Phone message. */
  lemma InvalidContactPhone(c: Constraints, j: JsonAdaptedPerson, ecName: string, ecPhone: string)
    requires MainFieldsConvertible(c, j)
    requires c.isValid(NameClass, ecName) && !c.isValid(PhoneClass, ecPhone)
    ensures ToModelType(c, j.(emergencyName := Some(ecName), emergencyPhone := Some(ecPhone)))
         == Err(ConstraintsOf(PhoneClass))
  {
    TagsToModelMeaning(c, j.tags);
  }

  /** With all three emergency-contact keys null the conversion succeeds, with no contact. */
  lemma NoContactConverts(c: Constraints, j: JsonAdaptedPerson)
    requires MainFieldsConvertible(c, j)
    ensures var r := ToModelType(c, j.(emergencyName := None, emergencyPhone := None, emergencyRelation := None));
      r.Ok? && r.value.emergencyContact == None
  {
    TagsToModelMeaning(c, j.tags);
  }
}
