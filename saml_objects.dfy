/**
 * The parts of a SAML 2.0 assertion (OASIS SAML V2.0 Core, section 2.3.3
 * Assertion, 2.7.2 AuthnStatement, 2.7.3 AttributeStatement) that the
 * matching-dataset unmarshallers read, the matching-dataset value types, and the
 * exceptions the unmarshallers throw.
 */
module SamlObjects {
  import opened Wrappers

  /** A joda DateTime, as milliseconds since the epoch. */
  datatype DateTime = DateTime(millis: int)

  /** A joda LocalDate. */
  datatype LocalDate = LocalDate(year: int, month: int, day: int)

  /** The domain gender enumeration; only `Gender.fromString` ever produces one. */
  datatype Gender = Gender(name: string)

  /** A postal address of the domain model, as `AddressFactory.create` returns it. */
  datatype Address = Address(lines: seq<string>, postCode: Option<string>, from: Option<DateTime>, to: Option<DateTime>, verified: bool)

  /** One value of one matching-dataset attribute with its validity interval. */
  datatype SimpleMdsValue<+T> = SimpleMdsValue(value: T, from: Option<DateTime>, to: Option<DateTime>, verified: bool)

  /** The XML element a string-based MDS value was unmarshalled from. */
  datatype MdsElement = PersonNameElement | DateElement | GenderElement

  /**
   * One XML attribute value.  `StringBasedMds` is a StringBasedMdsAttributeValue
   * (PersonName, Date and Gender are its subtypes); the eIDAS values carry one
   * field each; anything else appears as `OtherValue`.
   */
  datatype AttributeValue =
    | StringBasedMds(element: MdsElement, value: string, from: Option<DateTime>, to: Option<DateTime>, verified: bool)
    | PersonIdentifier(personIdentifier: string)
    | CurrentGivenName(firstName: string)
    | CurrentFamilyName(familyName: string)
    | DateOfBirth(dateOfBirth: LocalDate)
    | OtherValue(elementName: string)

  datatype Attribute = Attribute(name: string, values: seq<AttributeValue>)

  datatype AttributeStatement = AttributeStatement(attributes: seq<Attribute>)

  datatype AuthnStatement = AuthnStatement(authnContextClassRef: string)

  datatype SubjectConfirmationData = SubjectConfirmationData(
    notOnOrAfter: Option<DateTime>,
    inResponseTo: Option<string>,
    recipient: Option<string>)

  /** A Subject: its NameID value and the data of its subject confirmations, in order. */
  datatype Subject = Subject(nameId: string, confirmations: seq<SubjectConfirmationData>)

  datatype Assertion = Assertion(
    id: string,
    issuer: string,
    issueInstant: DateTime,
    subject: Subject,
    attributeStatements: seq<AttributeStatement>,
    authnStatements: seq<AuthnStatement>)

  /** The runtime exceptions the unmarshallers let escape. */
  datatype Failure =
    | IllegalArgument(message: string)
    | ClassCast
    | IndexOutOfBounds

  /**
   * The collaborators whose code is not part of this model: `LocalDate.parse`,
   * `Gender.fromString` and `AddressFactory.create`, each taken as a total function.
   */
  datatype Collaborators = Collaborators(
    parseDate: string -> LocalDate,
    genderFromString: string -> Gender,
    createAddresses: Attribute -> seq<Address>)

  // Attribute names of the Verify matching-dataset profile, version 1.1.
  const MdsFirstname := "MDS_firstname"
  const MdsMiddlename := "MDS_middlename"
  const MdsSurname := "MDS_surname"
  const MdsGender := "MDS_gender"
  const MdsDateOfBirth := "MDS_dateofbirth"
  const MdsCurrentAddress := "MDS_currentaddress"
  const MdsPreviousAddress := "MDS_previousaddress"

  // Attribute names of the eIDAS natural-person attribute profile.
  const EidasPrefix := "http://eidas.europa.eu/attributes/naturalperson/"
  const EidasFirstName := EidasPrefix + "CurrentGivenName"
  const EidasFamilyName := EidasPrefix + "CurrentFamilyName"
  const EidasDateOfBirth := EidasPrefix + "DateOfBirth"
  const EidasPersonIdentifier := EidasPrefix + "PersonIdentifier"
  const EidasGender := EidasPrefix + "Gender"
  const EidasCurrentAddress := EidasPrefix + "CurrentAddress"

  /** The six eIDAS attribute names differ from one another. */
  lemma EidasNamesDistinct()
    ensures EidasFirstName != EidasFamilyName
    ensures EidasFirstName != EidasDateOfBirth
    ensures EidasFirstName != EidasPersonIdentifier
    ensures EidasFirstName != EidasGender
    ensures EidasFirstName != EidasCurrentAddress
    ensures EidasFamilyName != EidasDateOfBirth
    ensures EidasFamilyName != EidasPersonIdentifier
    ensures EidasFamilyName != EidasGender
    ensures EidasFamilyName != EidasCurrentAddress
    ensures EidasDateOfBirth != EidasPersonIdentifier
    ensures EidasDateOfBirth != EidasGender
    ensures EidasDateOfBirth != EidasCurrentAddress
    ensures EidasPersonIdentifier != EidasGender
    ensures EidasPersonIdentifier != EidasCurrentAddress
    ensures EidasGender != EidasCurrentAddress
  {
    assert EidasFirstName[48] == 'C';
    assert EidasFamilyName[48] == 'C';
    assert EidasDateOfBirth[48] == 'D';
    assert EidasPersonIdentifier[48] == 'P';
    assert EidasGender[48] == 'G';
    assert EidasCurrentAddress[48] == 'C';
    assert EidasFirstName[55] == 'G';
    assert EidasFamilyName[55] == 'F';
    assert EidasCurrentAddress[55] == 'A';
  }
}
