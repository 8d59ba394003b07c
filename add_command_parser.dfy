/** The add-command assembler: from a tokenized argument map to a person record or the message of
    the first problem found. */
module AddCommandParser {
  import opened PersonModel

  datatype AddCommand = AddCommand(toAdd: Person)

  /** A tokenized command: the preamble and, per prefix, its values in order of appearance.
      A prefix that is not a key has no values. */
  datatype ArgumentMultimap = ArgumentMultimap(preamble: string, arguments: map<Prefix, seq<string>>)
  {
    function GetAllValues(p: Prefix): seq<string> {
      if p in arguments then arguments[p] else []
    }

    /** `getValue(p).isPresent()`: the prefix has at least one value. */
    predicate IsPresent(p: Prefix) {
      |GetAllValues(p)| > 0
    }

    /** `getValue(p).get()` for a prefix that has exactly one value, the only case in which the
        assembler reads a value; which value `getValue` picks from several does not matter. */
    function SoleValue(p: Prefix): string
      requires |GetAllValues(p)| == 1
    {
      GetAllValues(p)[0]
    }
  }

  /** The parts of ParserUtil's field parsing that are not the field predicates: the clean-up of a
      raw argument before it is validated, which may differ from one field class to another, and
      the reading of a priority argument as an integer. */
  datatype Reading = Reading(normalize: (FieldClass, string) -> string, readInt: string -> Option<int>)

  /** The prefixes that must be present. */
  const MANDATORY: seq<Prefix> :=
    [NamePrefix, PhonePrefix, EmailPrefix, AddressPrefix, OrganPrefix, BloodTypePrefix, PriorityPrefix]

  /** The prefixes that may appear at most once: every prefix but the tag prefix. */
  const SINGLE_VALUED: seq<Prefix> :=
    [NamePrefix, PhonePrefix, EmailPrefix, AddressPrefix, OrganPrefix, BloodTypePrefix, PriorityPrefix,
     EmergencyNamePrefix, EmergencyPhonePrefix, EmergencyRelationPrefix]

  /** `arePrefixesPresent`: scans the prefixes left to right and stops at the first absent one. */
  function ArePrefixesPresent(m: ArgumentMultimap, prefixes: seq<Prefix>): (b: bool)
    ensures b <==> forall i | 0 <= i < |prefixes| :: m.IsPresent(prefixes[i])
  {
    if prefixes == [] then true
    else if !m.IsPresent(prefixes[0]) then false
    else
      assert forall i | 1 <= i < |prefixes| :: prefixes[1..][i - 1] == prefixes[i];
      ArePrefixesPresent(m, prefixes[1..])
  }

  /** The prefixes among `prefixes` that were given more than once. */
  function DuplicatedPrefixes(m: ArgumentMultimap, prefixes: seq<Prefix>): (d: set<Prefix>)
  {
    set p | p in prefixes && |m.GetAllValues(p)| > 1
  }

  /** The shape checks: every mandatory prefix present and an empty preamble. */
  predicate ShapeOk(m: ArgumentMultimap) {
    ArePrefixesPresent(m, MANDATORY) && m.preamble == ""
  }

  /** The shape checks and the duplicate check both pass, so every mandatory prefix has exactly
      one value and every emergency-contact prefix at most one. */
  predicate WellFormed(m: ArgumentMultimap)
    ensures WellFormed(m) ==> ValueCounts(m)
  {
    WellFormedValues(m);
    ShapeOk(m) && DuplicatedPrefixes(m, SINGLE_VALUED) == {}
  }

  /** The value counts the field checks rely on. */
  predicate ValueCounts(m: ArgumentMultimap) {
    && |m.GetAllValues(NamePrefix)| == 1
    && |m.GetAllValues(PhonePrefix)| == 1
    && |m.GetAllValues(EmailPrefix)| == 1
    && |m.GetAllValues(AddressPrefix)| == 1
    && |m.GetAllValues(OrganPrefix)| == 1
    && |m.GetAllValues(BloodTypePrefix)| == 1
    && |m.GetAllValues(PriorityPrefix)| == 1
    && |m.GetAllValues(EmergencyNamePrefix)| <= 1
    && |m.GetAllValues(EmergencyPhonePrefix)| <= 1
    && |m.GetAllValues(EmergencyRelationPrefix)| <= 1
  }

  lemma WellFormedValues(m: ArgumentMultimap)
    ensures ShapeOk(m) && DuplicatedPrefixes(m, SINGLE_VALUED) == {} ==> ValueCounts(m)
  {
    if ShapeOk(m) && DuplicatedPrefixes(m, SINGLE_VALUED) == {} {
      SingleValuedAtMostOnce(m);
      assert forall i | 0 <= i < |MANDATORY| :: MANDATORY[i] in SINGLE_VALUED;
      assert forall i | 0 <= i < |MANDATORY| :: |m.GetAllValues(MANDATORY[i])| > 0;
      assert MANDATORY[0] == NamePrefix && MANDATORY[1] == PhonePrefix && MANDATORY[2] == EmailPrefix;
      assert MANDATORY[3] == AddressPrefix && MANDATORY[4] == OrganPrefix && MANDATORY[5] == BloodTypePrefix;
      assert MANDATORY[6] == PriorityPrefix;
    }
  }

  lemma SingleValuedAtMostOnce(m: ArgumentMultimap)
    requires DuplicatedPrefixes(m, SINGLE_VALUED) == {}
    ensures forall p | p in SINGLE_VALUED :: |m.GetAllValues(p)| <= 1
  {
    forall p | p in SINGLE_VALUED ensures |m.GetAllValues(p)| <= 1 {
      assert p !in DuplicatedPrefixes(m, SINGLE_VALUED);
    }
  }

  /** ParserUtil's parsing of a text-valued field: clean up, then validate. */
  function ParseText(c: Constraints, r: Reading, field: FieldClass, s: string): Result<string> {
    var t := r.normalize(field, s);
    if c.isValid(field, t) then Ok(t) else Err(ConstraintsOf(field))
  }

  function ParseName(c: Constraints, r: Reading, s: string): Result<Name> {
    var t :- ParseText(c, r, NameClass, s); Ok(Name(t))
  }

  function ParsePhone(c: Constraints, r: Reading, s: string): Result<Phone> {
    var t :- ParseText(c, r, PhoneClass, s); Ok(Phone(t))
  }

  function ParseEmail(c: Constraints, r: Reading, s: string): Result<Email> {
    var t :- ParseText(c, r, EmailClass, s); Ok(Email(t))
  }

  function ParseAddress(c: Constraints, r: Reading, s: string): Result<Address> {
    var t :- ParseText(c, r, AddressClass, s); Ok(Address(t))
  }

  function ParseOrgan(c: Constraints, r: Reading, s: string): Result<Organ> {
    var t :- ParseText(c, r, OrganClass, s); Ok(Organ(t))
  }

  function ParseBloodType(c: Constraints, r: Reading, s: string): Result<BloodType> {
    var t :- ParseText(c, r, BloodTypeClass, s); Ok(BloodType(t))
  }

  function ParseTag(c: Constraints, r: Reading, s: string): Result<Tag> {
    var t :- ParseText(c, r, TagClass, s); Ok(Tag(t))
  }

  /** A priority argument must read as an integer in the valid range. */
  function ParsePriority(c: Constraints, r: Reading, s: string): Result<Priority> {
    match r.readInt(s)
    case None => Err(ConstraintsOf(PriorityClass))
    case Some(n) => if c.isValidPriority(n) then Ok(Priority(n)) else Err(ConstraintsOf(PriorityClass))
  }

  function ParseTags(c: Constraints, r: Reading, values: seq<string>): Result<set<Tag>> {
    CollectTags(s => ParseTag(c, r, s), values)
  }

  /** None of the three emergency-contact prefixes is present. */
  predicate NoEmergencyContact(m: ArgumentMultimap) {
    !m.IsPresent(EmergencyNamePrefix) && !m.IsPresent(EmergencyPhonePrefix)
    && !m.IsPresent(EmergencyRelationPrefix)
  }

  /** The emergency-contact rule: no contact when none of its prefixes is present; an error when
      any is present but the name or the phone is missing; otherwise name and phone parsed as the
      main fields are, and the relation taken as given or "" when absent. */
  function ParseEmergencyContact(c: Constraints, r: Reading, m: ArgumentMultimap): (res: Result<Option<EmergencyContact>>)
    requires DuplicatedPrefixes(m, SINGLE_VALUED) == {}
  {
    var hasEcName := m.IsPresent(EmergencyNamePrefix);
    var hasEcPhone := m.IsPresent(EmergencyPhonePrefix);
    SingleValuedAtMostOnce(m);
    assert EmergencyNamePrefix in SINGLE_VALUED && EmergencyPhonePrefix in SINGLE_VALUED;
    assert EmergencyRelationPrefix in SINGLE_VALUED;
    if hasEcName || hasEcPhone || m.IsPresent(EmergencyRelationPrefix) then
      if !hasEcName || !hasEcPhone then Err(ConstraintsOf(EmergencyContactClass))
      else
        var ecName :- ParseName(c, r, m.SoleValue(EmergencyNamePrefix));
        var ecPhone :- ParsePhone(c, r, m.SoleValue(EmergencyPhonePrefix));
        var ecRelation :=
          if m.IsPresent(EmergencyRelationPrefix) then m.SoleValue(EmergencyRelationPrefix) else "";
        Ok(Some(EmergencyContact(ecName, ecPhone, ecRelation)))
    else Ok(None)
  }

  /** `AddCommandParser.parse` on an already tokenized argument map. */
  function Parse(c: Constraints, r: Reading, m: ArgumentMultimap): (res: Result<AddCommand>)
    ensures res.Ok? ==> WellFormed(m)
  {
    if !ArePrefixesPresent(m, MANDATORY) || m.preamble != "" then Err(InvalidCommandFormat)
    else
      var duplicated := DuplicatedPrefixes(m, SINGLE_VALUED);
      if duplicated != {} then Err(DuplicatePrefixes(duplicated))
      else
        assert WellFormed(m);
        var name :- ParseName(c, r, m.SoleValue(NamePrefix));
        var phone :- ParsePhone(c, r, m.SoleValue(PhonePrefix));
        var email :- ParseEmail(c, r, m.SoleValue(EmailPrefix));
        var address :- ParseAddress(c, r, m.SoleValue(AddressPrefix));
        var organ :- ParseOrgan(c, r, m.SoleValue(OrganPrefix));
        var bloodType :- ParseBloodType(c, r, m.SoleValue(BloodTypePrefix));
        var tags :- ParseTags(c, r, m.GetAllValues(TagPrefix));
        var emergencyContact :- ParseEmergencyContact(c, r, m);
        var priority :- ParsePriority(c, r, m.SoleValue(PriorityPrefix));
        Ok(AddCommand(Person(name, phone, email, address, organ, bloodType, priority, tags, emergencyContact)))
  }

  // ---------------------------------------------------------------------------------------------
  // Reference specification of the field checks: each check stated on its own, and the order in
  // which the assembler applies them.

  datatype Stage =
    | NameStage | PhoneStage | EmailStage | AddressStage | OrganStage | BloodTypeStage | TagStage
    | EmergencyPresenceStage | EmergencyNameStage | EmergencyPhoneStage | PriorityStage

  /** The order in which the field checks are made. */
  const STAGES: seq<Stage> :=
    [NameStage, PhoneStage, EmailStage, AddressStage, OrganStage, BloodTypeStage, TagStage,
     EmergencyPresenceStage, EmergencyNameStage, EmergencyPhoneStage, PriorityStage]

  /** Whether the input passes one check, judged independently of every other check. */
  predicate Passes(c: Constraints, r: Reading, m: ArgumentMultimap, k: Stage)
    requires WellFormed(m)
  {
    match k
    case NameStage => c.isValid(NameClass, r.normalize(NameClass, m.SoleValue(NamePrefix)))
    case PhoneStage => c.isValid(PhoneClass, r.normalize(PhoneClass, m.SoleValue(PhonePrefix)))
    case EmailStage => c.isValid(EmailClass, r.normalize(EmailClass, m.SoleValue(EmailPrefix)))
    case AddressStage => c.isValid(AddressClass, r.normalize(AddressClass, m.SoleValue(AddressPrefix)))
    case OrganStage => c.isValid(OrganClass, r.normalize(OrganClass, m.SoleValue(OrganPrefix)))
    case BloodTypeStage => c.isValid(BloodTypeClass, r.normalize(BloodTypeClass, m.SoleValue(BloodTypePrefix)))
    case TagStage =>
      forall i | 0 <= i < |m.GetAllValues(TagPrefix)| :: c.isValid(TagClass, r.normalize(TagClass, m.GetAllValues(TagPrefix)[i]))
    case EmergencyPresenceStage =>
      NoEmergencyContact(m) || (m.IsPresent(EmergencyNamePrefix) && m.IsPresent(EmergencyPhonePrefix))
    case EmergencyNameStage =>
      !m.IsPresent(EmergencyNamePrefix) || c.isValid(NameClass, r.normalize(NameClass, m.SoleValue(EmergencyNamePrefix)))
    case EmergencyPhoneStage =>
      !m.IsPresent(EmergencyPhonePrefix) || c.isValid(PhoneClass, r.normalize(PhoneClass, m.SoleValue(EmergencyPhonePrefix)))
    case PriorityStage =>
      var n := r.readInt(m.SoleValue(PriorityPrefix));
      n.Some? && c.isValidPriority(n.value)
  }

  /** The message a failing check produces. */
  function StageError(k: Stage): Message {
    match k
    case NameStage => ConstraintsOf(NameClass)
    case PhoneStage => ConstraintsOf(PhoneClass)
    case EmailStage => ConstraintsOf(EmailClass)
    case AddressStage => ConstraintsOf(AddressClass)
    case OrganStage => ConstraintsOf(OrganClass)
    case BloodTypeStage => ConstraintsOf(BloodTypeClass)
    case TagStage => ConstraintsOf(TagClass)
    case EmergencyPresenceStage => ConstraintsOf(EmergencyContactClass)
    case EmergencyNameStage => ConstraintsOf(NameClass)
    case EmergencyPhoneStage => ConstraintsOf(PhoneClass)
    case PriorityStage => ConstraintsOf(PriorityClass)
  }

  // ---------------------------------------------------------------------------------------------
  // Properties of Parse.

  /** The shape error is returned exactly when a mandatory prefix is absent or the preamble is not
      empty, whatever the fields hold. */
  lemma ShapeErrorIff(c: Constraints, r: Reading, m: ArgumentMultimap)
    ensures Parse(c, r, m) == Err(InvalidCommandFormat)
        <==> (exists i | 0 <= i < |MANDATORY| :: !m.IsPresent(MANDATORY[i])) || m.preamble != ""
  {
    if ShapeOk(m) && DuplicatedPrefixes(m, SINGLE_VALUED) == {} {
      NeverShapeErrorAfterShape(c, r, m);
    }
  }

  /** Once the shape checks pass no later check produces the usage error. */
  lemma NeverShapeErrorAfterShape(c: Constraints, r: Reading, m: ArgumentMultimap)
    requires WellFormed(m)
    ensures Parse(c, r, m) != Err(InvalidCommandFormat)
  {
    var tags := ParseTags(c, r, m.GetAllValues(TagPrefix));
    if tags.Err? {
      var i :| 0 <= i < |m.GetAllValues(TagPrefix)| && ParseTag(c, r, m.GetAllValues(TagPrefix)[i]) == Err(tags.error);
    }
  }

  /** The duplicate check runs only after the shape checks pass, and then reports exactly the
      single-valued prefixes given more than once. */
  lemma DuplicatesReported(c: Constraints, r: Reading, m: ArgumentMultimap)
    requires ShapeOk(m)
    ensures DuplicatedPrefixes(m, SINGLE_VALUED) != {} ==>
      Parse(c, r, m) == Err(DuplicatePrefixes(DuplicatedPrefixes(m, SINGLE_VALUED)))
    ensures DuplicatedPrefixes(m, SINGLE_VALUED) == {} ==> !(Parse(c, r, m).Err? && Parse(c, r, m).error.DuplicatePrefixes?)
  {
    if DuplicatedPrefixes(m, SINGLE_VALUED) == {} {
      assert WellFormed(m);
      var tags := ParseTags(c, r, m.GetAllValues(TagPrefix));
      if tags.Err? {
        var i :| 0 <= i < |m.GetAllValues(TagPrefix)| && ParseTag(c, r, m.GetAllValues(TagPrefix)[i]) == Err(tags.error);
      }
    }
  }

  /** Repeating the tag prefix never triggers the duplicate check. */
  lemma TagsNeverDuplicated(m: ArgumentMultimap, tagValues: seq<string>)
    ensures TagPrefix !in DuplicatedPrefixes(m, SINGLE_VALUED)
    ensures DuplicatedPrefixes(m.(arguments := m.arguments[TagPrefix := tagValues]), SINGLE_VALUED)
         == DuplicatedPrefixes(m, SINGLE_VALUED)
  {
  }

  /** The tags parse exactly when every tag value is valid after clean-up, into the set of the
      cleaned-up values; a failure carries the tag constraint message. */
  lemma ParseTagsMeaning(c: Constraints, r: Reading, values: seq<string>)
    ensures ParseTags(c, r, values).Ok? <==>
      forall i | 0 <= i < |values| :: c.isValid(TagClass, r.normalize(TagClass, values[i]))
    ensures ParseTags(c, r, values).Ok? ==>
      forall t :: t in ParseTags(c, r, values).value <==>
        exists i | 0 <= i < |values| :: t == Tag(r.normalize(TagClass, values[i]))
    ensures ParseTags(c, r, values).Err? ==> ParseTags(c, r, values).error == ConstraintsOf(TagClass)
  {
    var check := s => ParseTag(c, r, s);
    var res := CollectTags(check, values);
    assert forall i | 0 <= i < |values| :: check(values[i]).Ok? <==> c.isValid(TagClass, r.normalize(TagClass, values[i]));
    if res.Ok? {
      forall t ensures t in res.value <==> exists i | 0 <= i < |values| :: t == Tag(r.normalize(TagClass, values[i])) {
        if t in res.value {
          var i :| 0 <= i < |values| && check(values[i]) == Ok(t);
        } else {
          forall i | 0 <= i < |values| ensures t != Tag(r.normalize(TagClass, values[i])) {
            assert check(values[i]) == Ok(Tag(r.normalize(TagClass, values[i])));
          }
        }
      }
    } else {
      var i :| 0 <= i < |values| && check(values[i]) == Err(res.error);
    }
  }

  /** Each main-field parse succeeds exactly when its check passes, and fails with its message. */
  lemma FieldStageMeaning(c: Constraints, r: Reading, m: ArgumentMultimap)
    requires WellFormed(m)
    ensures ParseName(c, r, m.SoleValue(NamePrefix)).Ok? <==> Passes(c, r, m, NameStage)
    ensures ParsePhone(c, r, m.SoleValue(PhonePrefix)).Ok? <==> Passes(c, r, m, PhoneStage)
    ensures ParseEmail(c, r, m.SoleValue(EmailPrefix)).Ok? <==> Passes(c, r, m, EmailStage)
    ensures ParseAddress(c, r, m.SoleValue(AddressPrefix)).Ok? <==> Passes(c, r, m, AddressStage)
    ensures ParseOrgan(c, r, m.SoleValue(OrganPrefix)).Ok? <==> Passes(c, r, m, OrganStage)
    ensures ParseBloodType(c, r, m.SoleValue(BloodTypePrefix)).Ok? <==> Passes(c, r, m, BloodTypeStage)
    ensures ParseTags(c, r, m.GetAllValues(TagPrefix)).Ok? <==> Passes(c, r, m, TagStage)
    ensures ParsePriority(c, r, m.SoleValue(PriorityPrefix)).Ok? <==> Passes(c, r, m, PriorityStage)
    ensures ParseTags(c, r, m.GetAllValues(TagPrefix)).Err? ==>
      ParseTags(c, r, m.GetAllValues(TagPrefix)).error == ConstraintsOf(TagClass)
  {
    ParseTagsMeaning(c, r, m.GetAllValues(TagPrefix));
  }

  /** The emergency-contact rule against its three checks, in order: presence, then name, then
      phone. */
  lemma EmergencyContactMeaning(c: Constraints, r: Reading, m: ArgumentMultimap)
    requires WellFormed(m)
    ensures NoEmergencyContact(m) ==> ParseEmergencyContact(c, r, m) == Ok(None)
    ensures !Passes(c, r, m, EmergencyPresenceStage) ==>
      ParseEmergencyContact(c, r, m) == Err(ConstraintsOf(EmergencyContactClass))
    ensures Passes(c, r, m, EmergencyPresenceStage) && !Passes(c, r, m, EmergencyNameStage) ==>
      ParseEmergencyContact(c, r, m) == Err(ConstraintsOf(NameClass))
    ensures (Passes(c, r, m, EmergencyPresenceStage) && Passes(c, r, m, EmergencyNameStage)
             && !Passes(c, r, m, EmergencyPhoneStage)) ==>
      ParseEmergencyContact(c, r, m) == Err(ConstraintsOf(PhoneClass))
    ensures ParseEmergencyContact(c, r, m).Ok? <==>
      Passes(c, r, m, EmergencyPresenceStage) && Passes(c, r, m, EmergencyNameStage)
      && Passes(c, r, m, EmergencyPhoneStage)
  {
  }

  /** Once the shape checks pass, the error returned is that of the first failing field check in
      the order of STAGES, whatever the later fields hold. */
  lemma ParseReportsFirstFailure(c: Constraints, r: Reading, m: ArgumentMultimap, i: nat)
    requires WellFormed(m)
    requires i < |STAGES| && !Passes(c, r, m, STAGES[i])
    requires forall j | 0 <= j < i :: Passes(c, r, m, STAGES[j])
    ensures Parse(c, r, m) == Err(StageError(STAGES[i]))
  {
    FieldStageMeaning(c, r, m);
    EmergencyContactMeaning(c, r, m);
    assert STAGES[0] == NameStage && STAGES[1] == PhoneStage && STAGES[2] == EmailStage;
    assert STAGES[3] == AddressStage && STAGES[4] == OrganStage && STAGES[5] == BloodTypeStage;
    assert STAGES[6] == TagStage && STAGES[7] == EmergencyPresenceStage && STAGES[8] == EmergencyNameStage;
    assert STAGES[9] == EmergencyPhoneStage && STAGES[10] == PriorityStage;
  }

  /** Once the shape checks pass, parsing succeeds exactly when every field check passes. */
  lemma ParseSucceedsIff(c: Constraints, r: Reading, m: ArgumentMultimap)
    requires WellFormed(m)
    ensures Parse(c, r, m).Ok? <==> forall k :: Passes(c, r, m, k)
  {
    FieldStageMeaning(c, r, m);
    EmergencyContactMeaning(c, r, m);
  }

  /** A successful parse builds the record from exactly the parsed values: the cleaned-up field
      values, the set of cleaned-up tags, no emergency contact when none of its prefixes is
      present and otherwise the contact with the relation given or "". The record is valid. */
  lemma ParseBuildsParsedValues(c: Constraints, r: Reading, m: ArgumentMultimap)
    requires Parse(c, r, m).Ok?
    ensures WellFormed(m)
    ensures var p := Parse(c, r, m).value.toAdd;
      && p.name == Name(r.normalize(NameClass, m.SoleValue(NamePrefix)))
      && p.phone == Phone(r.normalize(PhoneClass, m.SoleValue(PhonePrefix)))
      && p.email == Email(r.normalize(EmailClass, m.SoleValue(EmailPrefix)))
      && p.address == Address(r.normalize(AddressClass, m.SoleValue(AddressPrefix)))
      && p.organ == Organ(r.normalize(OrganClass, m.SoleValue(OrganPrefix)))
      && p.bloodType == BloodType(r.normalize(BloodTypeClass, m.SoleValue(BloodTypePrefix)))
      && r.readInt(m.SoleValue(PriorityPrefix)) == Some(p.priority.value)
      && (forall t :: t in p.tags <==>
            exists i | 0 <= i < |m.GetAllValues(TagPrefix)| :: t == Tag(r.normalize(TagClass, m.GetAllValues(TagPrefix)[i])))
      && (NoEmergencyContact(m) ==> p.emergencyContact == None)
      && (!NoEmergencyContact(m) ==> p.emergencyContact == Some(EmergencyContact(
            Name(r.normalize(NameClass, m.SoleValue(EmergencyNamePrefix))),
            Phone(r.normalize(PhoneClass, m.SoleValue(EmergencyPhonePrefix))),
            if m.IsPresent(EmergencyRelationPrefix) then m.SoleValue(EmergencyRelationPrefix) else "")))
      && c.ValidPerson(p)
  {
    ParseTagsMeaning(c, r, m.GetAllValues(TagPrefix));
  }

  /** An emergency contact with any of its prefixes present but its name or phone missing (a
      relation alone included) is reported once the earlier fields pass, even when the priority,
      checked later, is invalid too. */
  lemma IncompleteContactReported(c: Constraints, r: Reading, m: ArgumentMultimap)
    requires WellFormed(m)
    requires forall j | 0 <= j < 7 :: Passes(c, r, m, STAGES[j])
    requires !NoEmergencyContact(m)
    requires !m.IsPresent(EmergencyNamePrefix) || !m.IsPresent(EmergencyPhonePrefix)
    ensures Parse(c, r, m) == Err(ConstraintsOf(EmergencyContactClass))
  {
    assert STAGES[7] == EmergencyPresenceStage;
    ParseReportsFirstFailure(c, r, m, 7);
  }
}
