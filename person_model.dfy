/** The record a command or a stored entry turns into, its field value types, the per-field validity
    predicates (kept abstract), and the error messages both input paths can produce. */
module PersonModel {

  datatype Option<T> = None | Some(value: T) {
    function GetOr(default: T): T {
      if Some? then value else default
    }
  }

  /** The classes whose MESSAGE_CONSTRAINTS or simple name appear in an error message. */
  datatype FieldClass =
    | NameClass | PhoneClass | EmailClass | AddressClass | OrganClass
    | BloodTypeClass | PriorityClass | TagClass | EmergencyContactClass
  {
    /** Java's `getSimpleName()` of the class. */
    function SimpleName(): string {
      match this
      case NameClass => "Name"
      case PhoneClass => "Phone"
      case EmailClass => "Email"
      case AddressClass => "Address"
      case OrganClass => "Organ"
      case BloodTypeClass => "BloodType"
      case PriorityClass => "Priority"
      case TagClass => "Tag"
      case EmergencyContactClass => "EmergencyContact"
    }
  }

  /** The recognised command prefixes (name, phone, email, address, organ, blood type, priority,
      tag, emergency-contact name, phone and relation). */
  datatype Prefix =
    | NamePrefix | PhonePrefix | EmailPrefix | AddressPrefix | OrganPrefix | BloodTypePrefix
    | PriorityPrefix | TagPrefix | EmergencyNamePrefix | EmergencyPhonePrefix | EmergencyRelationPrefix

  /** The messages an exception can carry. */
  datatype Message =
    /** MESSAGE_INVALID_COMMAND_FORMAT formatted with the add command's usage text */
    | InvalidCommandFormat
    /** the message listing the single-valued prefixes that were given more than once */
    | DuplicatePrefixes(prefixes: set<Prefix>)
    /** the MESSAGE_CONSTRAINTS constant of a field class */
    | ConstraintsOf(field: FieldClass)
    /** MISSING_FIELD_MESSAGE_FORMAT formatted with a field's name */
    | MissingField(fieldName: string)

  /** Either a value or the message of the exception that was thrown instead. */
  datatype Result<T> = Ok(value: T) | Err(error: Message) {
    predicate IsFailure() {
      Err?
    }

    function PropagateFailure<U>(): Result<U>
      requires Err?
    {
      Err(error)
    }

    function Extract(): T
      requires Ok?
    {
      value
    }
  }

  datatype Name = Name(fullName: string)
  datatype Phone = Phone(value: string)
  datatype Email = Email(value: string)
  datatype Address = Address(value: string)
  datatype Organ = Organ(value: string)
  datatype BloodType = BloodType(value: string)
  datatype Priority = Priority(value: int)
  datatype Tag = Tag(tagName: string)
  datatype EmergencyContact = EmergencyContact(name: Name, phone: Phone, relationship: string)

  /** A person record; `None` stands for the null emergency contact. */
  datatype Person = Person(
    name: Name,
    phone: Phone,
    email: Email,
    address: Address,
    organ: Organ,
    bloodType: BloodType,
    priority: Priority,
    tags: set<Tag>,
    emergencyContact: Option<EmergencyContact>)

  /** The validity predicates of the field classes (`Name.isValidName`, `Tag.isValidTagName`,
      `Priority.isValidPriority`, ...), whose patterns and ranges are left abstract: `isValid`
      is the table from a text-valued field class to its predicate. */
  datatype Constraints = Constraints(isValid: (FieldClass, string) -> bool, isValidPriority: int -> bool)
  {
    /** Every field of `p` satisfies its class's predicate, as the value classes enforce when
        they are constructed. */
    predicate ValidPerson(p: Person) {
      && isValid(NameClass, p.name.fullName)
      && isValid(PhoneClass, p.phone.value)
      && isValid(EmailClass, p.email.value)
      && isValid(AddressClass, p.address.value)
      && isValid(OrganClass, p.organ.value)
      && isValid(BloodTypeClass, p.bloodType.value)
      && isValidPriority(p.priority.value)
      && (forall t | t in p.tags :: isValid(TagClass, t.tagName))
      && (p.emergencyContact.Some? ==>
            && isValid(NameClass, p.emergencyContact.value.name.fullName)
            && isValid(PhoneClass, p.emergencyContact.value.phone.value))
    }
  }

  /** Converts tag strings one by one, in order, into a set of tags: the first string `check`
      rejects decides the error; otherwise the set holds exactly the converted tags (duplicates
      collapse). Both input paths collect their tags this way. */
  function CollectTags(check: string -> Result<Tag>, names: seq<string>): (r: Result<set<Tag>>)
    ensures r.Ok? <==> forall i | 0 <= i < |names| :: check(names[i]).Ok?
    ensures r.Ok? ==> forall t :: t in r.value <==> exists i | 0 <= i < |names| :: check(names[i]) == Ok(t)
    ensures r.Err? ==>
      exists i | 0 <= i < |names| ::
        && check(names[i]) == Err(r.error)
        && forall j | 0 <= j < i :: check(names[j]).Ok?
  {
    if names == [] then Ok({})
    else
      var first :- check(names[0]);
      var rest :- CollectTags(check, names[1..]);
      assert forall i | 1 <= i < |names| :: names[1..][i - 1] == names[i];
      Ok({first} + rest)
  }
}
