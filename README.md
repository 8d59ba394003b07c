# Add-command and stored-record validation of a person-record manager

This project models, in Dafny, the part of a single-user record manager for organ donors and recipients
that turns input into a validated person record:

- **The add-command assembler** (`AddCommandParser.parse`). It takes a tokenized command: a preamble and, per field
  prefix, the values given. It then works in stages. First come the shape checks: all seven mandatory prefixes must
  be present, the preamble must be empty, and no single-valued prefix may repeat. Next it validates the fields in a
  fixed order and stops at the first failure. The emergency contact follows a three-state rule: all of its prefixes
  absent, or name and phone both present, or else an error. Finally it builds the `Person`.
- **The persistence adapter** (`JsonAdaptedPerson.toModelType`, as its tests fix it). It converts a stored record,
  where every field may be null, back to a `Person`. It tells a missing field apart from an invalid one, handles
  a half-present emergency contact, and gives back the original person after a round trip.
- **The test-side record builder** (`PersonBuilder`). It is a mutable object with nine fields. A default and a copy
  constructor set them up, each setter overwrites one field in place, and `build` produces the `Person`.

Files:

- `person_model.dfy` (module `PersonModel`): the field value types, `Person`, the messages, and the `Result` type.
  It also holds `Constraints`, a table of abstract per-field validity predicates, and `CollectTags`, the tag collector
  both input paths use.
- `add_command_parser.dfy` (module `AddCommandParser`): the argument map, `Parse`, and a reference specification
  of the field checks. That reference is `Stage`, `STAGES`, `Passes` and `StageError`: each check stated on its own,
  plus the order the checks run in. The lemmas tie `Parse` to that reference.
- `storage.dfy` (module `Storage`): the stored form, `FromPerson` (the serializing constructor), `ToModelType`, and
  the lemmas that state each tested case.
- `person_builder.dfy` (module `TestUtil`): the `PersonBuilder` class, with "only this field changes" contracts on
  every setter.

The field predicates (`Name.isValidName`, `Phone.isValidPhone`, …, `Priority.isValidPriority`) are not part of this
model. The `Constraints` value carries them as uninterpreted functions, so every lemma holds for all possible
predicates. Each message constant is a constructor of `Message`:

- `ConstraintsOf(c)` is class `c`'s `MESSAGE_CONSTRAINTS`.
- `MissingField(n)` is `MISSING_FIELD_MESSAGE_FORMAT` formatted with `n`.
- `InvalidCommandFormat` is the invalid-command-format message that wraps the add command's usage text.
- `DuplicatePrefixes(ps)` is the message that lists the repeated prefixes.

Different constructors are different messages.

## Model

| member | source | states |
|---|---|---|
| `PersonModel.CollectTags` | src/main/java/seedu/address/logic/parser/AddCommandParser.java:64 | The tag strings are converted one by one, in order. The result is a set exactly when every string converts. The set holds exactly the converted tags, so duplicates collapse. A failure carries the error of the first string that fails. |
| `AddCommandParser.ArePrefixesPresent` | src/main/java/seedu/address/logic/parser/AddCommandParser.java:90-92 | True exactly when every listed prefix has a value. |
| `AddCommandParser.WellFormed` | src/main/java/seedu/address/logic/parser/AddCommandParser.java:48-57 | Once the presence, preamble and duplicate checks pass, each mandatory prefix has exactly one value and each emergency-contact prefix has at most one. So the value `getValue` picks never matters afterwards. |
| `AddCommandParser.DuplicatedPrefixes` | src/main/java/seedu/address/logic/parser/AddCommandParser.java:55-57 | The set of single-valued prefixes given more than once. `DuplicatesReported` states that `Parse` fails with exactly this set when it is not empty, and `TagsNeverDuplicated` that the tag prefix is never in it. |
| `AddCommandParser.ParseEmergencyContact` | src/main/java/seedu/address/logic/parser/AddCommandParser.java:66-78 | The three-state rule, stated by `EmergencyContactMeaning`: no contact prefix gives no contact and no error. A contact prefix without both name and phone gives the EmergencyContact message. Otherwise the name and then the phone go through the Name and Phone checks, and the contact parses exactly when all three checks pass. The contact it builds is stated at the level of `Parse` by `ParseBuildsParsedValues`: the cleaned-up name and phone, with the relation as given or "" when absent. |
| `AddCommandParser.Parse` | src/main/java/seedu/address/logic/parser/AddCommandParser.java:42-84 | A successful parse had passed the shape and duplicate checks. The rest of its contract is in the lemmas below. `ShapeErrorIff` and `DuplicatesReported` state the shape and duplicate errors. `ParseReportsFirstFailure` and `ParseSucceedsIff` state the field checks and their order. `ParseBuildsParsedValues` states the record it builds. |
| `AddCommandParser.ShapeErrorIff` | src/main/java/seedu/address/logic/parser/AddCommandParser.java:48-53 | Parsing fails with the usage error exactly when a mandatory prefix is absent or the preamble is not empty, whatever the other fields hold. This includes input whose fields are all valid. |
| `AddCommandParser.NeverShapeErrorAfterShape` | src/main/java/seedu/address/logic/parser/AddCommandParser.java:55-83 | Once the shape checks pass, no later check yields the usage error. |
| `AddCommandParser.DuplicatesReported` | src/main/java/seedu/address/logic/parser/AddCommandParser.java:55-57 | After the shape checks pass, a repeated single-valued prefix fails the parse with exactly the set of repeated prefixes. Without one, no duplicate error arises. |
| `AddCommandParser.TagsNeverDuplicated` | src/main/java/seedu/address/logic/parser/AddCommandParser.java:55-57 | The tag prefix is never reported as duplicated, and the tag values do not affect the duplicate check. |
| `AddCommandParser.ParseTagsMeaning` | src/main/java/seedu/address/logic/parser/AddCommandParser.java:64 | The tags parse exactly when every cleaned-up tag value is valid. The result is the set of those values. A failure carries the Tag message. |
| `AddCommandParser.FieldStageMeaning` | src/main/java/seedu/address/logic/parser/AddCommandParser.java:58-79 | Each main-field parse (Name, Phone, Email, Address, Organ, BloodType, Tags, Priority) succeeds exactly when that field's check passes. |
| `AddCommandParser.EmergencyContactMeaning` | src/main/java/seedu/address/logic/parser/AddCommandParser.java:66-78 | No emergency-contact prefix means no contact and no error. Any contact prefix without both name and phone gives the EmergencyContact message. Otherwise the name and phone go through the Name and Phone checks, in that order. The contact parses exactly when all three checks pass. |
| `AddCommandParser.ParseReportsFirstFailure` | src/main/java/seedu/address/logic/parser/AddCommandParser.java:58-79 | Once the shape checks pass, the error is that of the first failing check in the order Name, Phone, Email, Address, Organ, BloodType, Tags, contact completeness, contact name, contact phone, Priority, whatever the later fields hold. |
| `AddCommandParser.ParseSucceedsIff` | src/main/java/seedu/address/logic/parser/AddCommandParser.java:58-83 | Once the shape checks pass, parsing succeeds exactly when every field check passes. |
| `AddCommandParser.ParseBuildsParsedValues` | src/main/java/seedu/address/logic/parser/AddCommandParser.java:58-83 | A successful parse builds the record from exactly the parsed values: the cleaned-up fields, the set of cleaned-up tags, and the priority read. With no contact prefix the contact is absent. Otherwise it is built from the cleaned-up name and phone plus the relation as given, or "" when absent. The record is valid. |
| `AddCommandParser.IncompleteContactReported` | src/main/java/seedu/address/logic/parser/AddCommandParser.java:70-73 | A contact prefix present without both name and phone, a relation alone included, gives the EmergencyContact message once the earlier fields pass, even when the priority is invalid too. |
| `Storage.FromPerson` | src/test/java/seedu/address/storage/JsonAdaptedPersonTest.java:50 | The stored form of a person has every mandatory field and the priority present and one tag string per tag of the given order. Its contact keys are all null exactly when the person has no contact. `RoundTrip` states that converting it back gives the person. |
| `Storage.ToModelType` | src/test/java/seedu/address/storage/JsonAdaptedPersonTest.java:48-219 | A converted person is valid. `ToModelTypeSucceedsIff` states when conversion succeeds and what the result holds, and the lemmas below state each tested fault. |
| `Storage.TagsToModelMeaning` | src/test/java/seedu/address/storage/JsonAdaptedPersonTest.java:150-158 | Stored tags convert exactly when every one is valid, and give the set of those tags. |
| `Storage.ToModelTypeSucceedsIff` | src/test/java/seedu/address/storage/JsonAdaptedPersonTest.java:48-219 | Conversion succeeds exactly when every mandatory field is present and valid, every tag is valid, and the emergency contact is either all null or has a valid name and phone. The result holds exactly the stored values, a null relation reads as "", and the person is valid. |
| `Storage.RoundTrip` | src/test/java/seedu/address/storage/JsonAdaptedPersonTest.java:49-52 | For any valid person and any order of its tags, converting its stored form back gives that same person. |
| `Storage.NullFieldIsMissing` | src/test/java/seedu/address/storage/JsonAdaptedPersonTest.java:65-71 | Any of name, phone, email, address, organ or blood type null, with all else convertible, gives the missing-field message naming that class. These are the tests at lines 65-71, 84-90, 103-109, 122-128, 141-147 and 160-166. |
| `Storage.InvalidFieldIsReported` | src/test/java/seedu/address/storage/JsonAdaptedPersonTest.java:55-62 | Any of those six fields present but invalid, with all else convertible, gives that class's own constraint message, not the missing-field message. These are the tests at lines 55-62, 74-81, 93-100, 112-119, 131-138 and 169-176. |
| `Storage.InvalidTagFails` | src/test/java/seedu/address/storage/JsonAdaptedPersonTest.java:150-158 | One invalid tag, wherever it stands among the others, makes the conversion fail. |
| `Storage.ContactNameOnly` | src/test/java/seedu/address/storage/JsonAdaptedPersonTest.java:179-185 | A valid contact name with null phone and relation gives the missing-field message for "EmergencyContact Phone". |
| `Storage.ContactPhoneOnly` | src/test/java/seedu/address/storage/JsonAdaptedPersonTest.java:188-194 | A valid contact phone with null name and relation gives the missing-field message for "EmergencyContact Name". |
| `Storage.InvalidContactName` | src/test/java/seedu/address/storage/JsonAdaptedPersonTest.java:197-203 | An invalid contact name with a valid phone gives the ordinary Name message. |
| `Storage.InvalidContactPhone` | src/test/java/seedu/address/storage/JsonAdaptedPersonTest.java:206-212 | A valid contact name with an invalid phone gives the ordinary Phone message. |
| `Storage.NoContactConverts` | src/test/java/seedu/address/storage/JsonAdaptedPersonTest.java:215-219 | With all three contact keys null and the rest convertible, conversion succeeds with no contact. |
| `TestUtil.PersonBuilder.constructor` | src/test/java/seedu/address/testutil/PersonBuilder.java:44-54 | Sets the defaults: "Amy Bee", "85355255", "amy@gmail.com", "123, Jurong West Ave 6, #08-111", "kidney", "O+", priority 1, no tags, no contact. |
| `TestUtil.PersonBuilder.Copy` | src/test/java/seedu/address/testutil/PersonBuilder.java:59-69 | The builder holds every field of the copied person, with a tag set of its own. |
| `TestUtil.PersonBuilder.WithName` | src/test/java/seedu/address/testutil/PersonBuilder.java:74-77 | Only the name changes, and the same builder is returned. |
| `TestUtil.PersonBuilder.WithTags` | src/test/java/seedu/address/testutil/PersonBuilder.java:82-85 | The tag set is replaced by the given tags, not added to, and nothing else changes. The same builder is returned. |
| `TestUtil.PersonBuilder.WithAddress` | src/test/java/seedu/address/testutil/PersonBuilder.java:90-93 | Only the address changes, and the same builder is returned. |
| `TestUtil.PersonBuilder.WithPhone` | src/test/java/seedu/address/testutil/PersonBuilder.java:98-101 | Only the phone changes, and the same builder is returned. |
| `TestUtil.PersonBuilder.WithEmail` | src/test/java/seedu/address/testutil/PersonBuilder.java:106-109 | Only the email changes, and the same builder is returned. |
| `TestUtil.PersonBuilder.WithOrgan` | src/test/java/seedu/address/testutil/PersonBuilder.java:114-117 | Only the organ changes, and the same builder is returned. |
| `TestUtil.PersonBuilder.WithBloodType` | src/test/java/seedu/address/testutil/PersonBuilder.java:121-124 | Only the blood type changes, and the same builder is returned. |
| `TestUtil.PersonBuilder.WithPriority` | src/test/java/seedu/address/testutil/PersonBuilder.java:129-132 | Only the priority changes, and the same builder is returned. |
| `TestUtil.PersonBuilder.WithEmergencyContact` | src/test/java/seedu/address/testutil/PersonBuilder.java:137-140 | The contact becomes exactly the one given, which may be absent. Nothing else changes. |
| `TestUtil.PersonBuilder.WithEmergencyContactDetails` | src/test/java/seedu/address/testutil/PersonBuilder.java:145-148 | The contact becomes the one built from `Name(name)`, `Phone(phone)` and the relationship. Nothing else changes. |
| `TestUtil.PersonBuilder.Build` | src/test/java/seedu/address/testutil/PersonBuilder.java:150-152 | The result is the person with the current nine fields in the constructor's order, and the builder is left unchanged. |
| `TestUtil.CopyThenBuild` | src/test/java/seedu/address/testutil/PersonBuilder.java:59-69 | Copying a person into a builder and building at once gives back an equal person. |
| `TestUtil.DefaultWithNameAndTags` | src/test/java/seedu/address/testutil/PersonBuilder.java:82-85 | On a default builder, setting the name and then the tags twice changes only those fields, and the last tag set wins. |

## Left out

- Tokenizing (`ArgumentTokenizer`) is not part of this model. `Parse` takes the preamble and the prefix-to-values map
  as its input.
- Which value `getValue` returns from several is not modelled. `arePrefixesPresent` calls `getValue` before the
  duplicate check, but only to test presence. No value is read before the duplicate check has left at most one
  value, so the choice never matters.
- The field predicates' patterns and the valid priority range are not part of this model. They are the uninterpreted
  functions of `Constraints`. So the test file's concrete invalid values are not stated: `INVALID_NAME` "R@chel"
  (JsonAdaptedPersonTest.java:24), `INVALID_ORGAN` "k1dney" (line 30), and `INVALID_PRIORITY` -1 (line 32), which no
  test uses.
- `ParserUtil` is not part of this model. Its clean-up of a raw value before validation is the uninterpreted
  `Reading.normalize`, one function per field class, so each `parseX` may clean up its value in its own way. The
  contact's name and phone use the Name and Phone clean-up, since they go through the same `parseName` and
  `parsePhone`. Its reading of the priority as an integer is the uninterpreted `Reading.readInt`.
- `AddCommandParser.ParsePriority`: that an integer which fails to read and one outside the valid range both give
  the Priority message is a choice of this model, because `parsePriority` is not part of it.
- The message texts are not modelled: `MESSAGE_USAGE`, the constraint messages, the missing-field format and the
  duplicate-prefix format. Each is a `Message` constructor, and different constructors stand for different messages.
- `JsonAdaptedPerson.java` itself is not part of this model. `ToModelType` is written to meet the tests, and these
  points in it are choices of this model:
  - the check order between two faulty fields (tags, then name, phone, email, address, organ, blood type,
    priority, contact), which no lemma relies on;
  - within the contact, both presences are tested before either validity, which no lemma relies on;
  - within the contact, a missing name is tested before a missing phone, so a record with only a relation gives
    the missing-field message for "EmergencyContact Name"; no lemma relies on this;
  - the missing-field message for a null priority, which no lemma relies on;
  - a null relation reading as "", which `Storage.ToModelTypeSucceedsIff` states.
  The fault lemmas state only single-fault cases, as the tests do.
- JSON reading and writing, Jackson annotations and `JsonAdaptedTag` beyond one string per tag are not modelled.
- Executing an `AddCommand`, detecting duplicate persons and storing the model are not modelled.
- `TestUtil.PersonBuilder.WithName` and the other setters and constructors do not model the argument checks of the
  value classes' constructors. A builder given an invalid string in the source throws; here it stores the value.
- Equality of `Person` objects is modelled as equality of all nine fields.
- The order in which a `HashSet` iterates is not modelled: tags are a mathematical set. `Storage.FromPerson` takes the
  iteration order as a parameter, and `Storage.RoundTrip` holds for every order.
- `SampleDataUtil.getTagSet` and `TypicalPersons.BENSON` are not part of this model. The helper `GetTagSet` makes
  one tag per string, and the round trip is proved for every valid person rather than for one sample.
- The incomplete-emergency-contact rule on the command path uses the one `EmergencyContact` constraint message. The
  code does not name which half is missing. Only the stored-record path names the missing half.
