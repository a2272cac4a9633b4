/**
 * The matching-dataset unmarshaller for assertions carrying attribute values of
 * the eIDAS natural-person attribute profile.
 */
module EidasMatchingDatasetUnmarshaller {
  import opened Wrappers
  import opened SamlObjects
  import opened MatchingDatasets
  import opened MatchingDatasetBuilders
  import opened MatchingDatasetUnmarshallerBase

  /** The attribute names the eIDAS dispatcher accepts; Gender is not among them. */
  predicate IsSupported(name: string)
  {
    name in {EidasFirstName, EidasFamilyName, EidasDateOfBirth, EidasPersonIdentifier}
  }

  const UnsupportedProfile := "Eidas "

  const NoPersonalIdentifierMessage := "No PersonalIdentifier found in Matching Dataset Assertion"

  // eIDAS values carry no validity interval, and are always taken as verified.

  function GivenNameEntry(v: AttributeValue): Option<SimpleMdsValue<string>>
  {
    if v.CurrentGivenName? then Some(SimpleMdsValue(v.firstName, None, None, true)) else None
  }

  function FamilyNameEntry(v: AttributeValue): Option<SimpleMdsValue<string>>
  {
    if v.CurrentFamilyName? then Some(SimpleMdsValue(v.familyName, None, None, true)) else None
  }

  function DateOfBirthEntry(v: AttributeValue): Option<SimpleMdsValue<LocalDate>>
  {
    if v.DateOfBirth? then Some(SimpleMdsValue(v.dateOfBirth, None, None, true)) else None
  }

  function GivenNamesOf(a: Attribute): seq<SimpleMdsValue<string>>
  {
    ValuesOrEmpty(CastEach(a.values, GivenNameEntry))
  }

  function FamilyNamesOf(a: Attribute): seq<SimpleMdsValue<string>>
  {
    ValuesOrEmpty(CastEach(a.values, FamilyNameEntry))
  }

  function DatesOfBirthOf(a: Attribute): seq<SimpleMdsValue<LocalDate>>
  {
    ValuesOrEmpty(CastEach(a.values, DateOfBirthEntry))
  }

  /** `transformEidasGivenNameAttribute` */
  method TransformEidasGivenNameAttribute(a: Attribute) returns (r: Result<seq<SimpleMdsValue<string>>, Failure>)
    ensures r == CastEach(a.values, GivenNameEntry)
    ensures r.Success? ==> |r.value| == |a.values| && forall i :: 0 <= i < |a.values| ==>
      a.values[i].CurrentGivenName? && r.value[i] == SimpleMdsValue(a.values[i].firstName, None, None, true)
  {
    var personNames: seq<SimpleMdsValue<string>> := [];
    for i := 0 to |a.values|
      invariant CastEach(a.values[..i], GivenNameEntry) == Success(personNames)
    {
      assert a.values[..i + 1][..i] == a.values[..i];
      match a.values[i]
      case CurrentGivenName(firstName) =>
        personNames := personNames + [SimpleMdsValue(firstName, None, None, true)];
      case _ =>
        return Failure(ClassCast);
    }
    assert a.values[..|a.values|] == a.values;
    return Success(personNames);
  }

  /** `transformEidasFamilyNameAttribute` */
  method TransformEidasFamilyNameAttribute(a: Attribute) returns (r: Result<seq<SimpleMdsValue<string>>, Failure>)
    ensures r == CastEach(a.values, FamilyNameEntry)
    ensures r.Success? ==> |r.value| == |a.values| && forall i :: 0 <= i < |a.values| ==>
      a.values[i].CurrentFamilyName? && r.value[i] == SimpleMdsValue(a.values[i].familyName, None, None, true)
  {
    var personNames: seq<SimpleMdsValue<string>> := [];
    for i := 0 to |a.values|
      invariant CastEach(a.values[..i], FamilyNameEntry) == Success(personNames)
    {
      assert a.values[..i + 1][..i] == a.values[..i];
      match a.values[i]
      case CurrentFamilyName(familyName) =>
        personNames := personNames + [SimpleMdsValue(familyName, None, None, true)];
      case _ =>
        return Failure(ClassCast);
    }
    assert a.values[..|a.values|] == a.values;
    return Success(personNames);
  }

  /** `transformEidasDateOfBirthAttribute` */
  method TransformEidasDateOfBirthAttribute(a: Attribute) returns (r: Result<seq<SimpleMdsValue<LocalDate>>, Failure>)
    ensures r == CastEach(a.values, DateOfBirthEntry)
    ensures r.Success? ==> |r.value| == |a.values| && forall i :: 0 <= i < |a.values| ==>
      a.values[i].DateOfBirth? && r.value[i] == SimpleMdsValue(a.values[i].dateOfBirth, None, None, true)
  {
    var datesOfBirth: seq<SimpleMdsValue<LocalDate>> := [];
    for i := 0 to |a.values|
      invariant CastEach(a.values[..i], DateOfBirthEntry) == Success(datesOfBirth)
    {
      assert a.values[..i + 1][..i] == a.values[..i];
      match a.values[i]
      case DateOfBirth(dateOfBirth) =>
        datesOfBirth := datesOfBirth + [SimpleMdsValue(dateOfBirth, None, None, true)];
      case _ =>
        return Failure(ClassCast);
    }
    assert a.values[..|a.values|] == a.values;
    return Success(datesOfBirth);
  }

  /** `transformAttribute` on values: the builder call one attribute causes, or the exception it throws. */
  function Decode(a: Attribute): (r: Result<Mutation, Failure>)
    ensures !IsSupported(a.name) <==> r == Failure(IllegalArgument(UnsupportedMessage(a.name, UnsupportedProfile)))
    ensures a.name == EidasFirstName ==> (r.Success? <==> forall i :: 0 <= i < |a.values| ==> a.values[i].CurrentGivenName?)
    ensures a.name == EidasFamilyName ==> (r.Success? <==> forall i :: 0 <= i < |a.values| ==> a.values[i].CurrentFamilyName?)
    ensures a.name == EidasDateOfBirth ==> (r.Success? <==> forall i :: 0 <= i < |a.values| ==> a.values[i].DateOfBirth?)
    ensures a.name == EidasPersonIdentifier ==> r == Success(NoMutation)
    ensures r.Failure? && IsSupported(a.name) ==> r.error == ClassCast
    ensures r.Success? ==> FirstnamesAdded(r.value) == if a.name == EidasFirstName then GivenNamesOf(a) else []
    ensures r.Success? ==> MiddlenamesAdded(r.value) == []
    ensures r.Success? ==> SurnamesAdded(r.value) == if a.name == EidasFamilyName then FamilyNamesOf(a) else []
    ensures r.Success? ==> GenderWritten(r.value).None?
    ensures r.Success? ==> DatesOfBirthAdded(r.value) == if a.name == EidasDateOfBirth then DatesOfBirthOf(a) else []
    ensures r.Success? ==> CurrentAddressesAdded(r.value) == []
    ensures r.Success? ==> PreviousAddressesAdded(r.value) == []
    ensures r.Success? ==> PersonalIdWritten(r.value).None?
  {
    EidasNamesDistinct();
    if a.name == EidasFirstName then
      match CastEach(a.values, GivenNameEntry)
      case Success(names) => Success(AddFirstnames(names))
      case Failure(e) => Failure(e)
    else if a.name == EidasFamilyName then
      match CastEach(a.values, FamilyNameEntry)
      case Success(names) => Success(AddSurnames(names))
      case Failure(e) => Failure(e)
    else if a.name == EidasDateOfBirth then
      match CastEach(a.values, DateOfBirthEntry)
      case Success(dates) => Success(AddDatesOfBirth(dates))
      case Failure(e) => Failure(e)
    else if a.name == EidasPersonIdentifier then
      Success(NoMutation)
    else
      Failure(IllegalArgument(UnsupportedMessage(a.name, UnsupportedProfile)))
  }

  function Decoder(): Attribute -> Result<Mutation, Failure>
  {
    (a: Attribute) => Decode(a)
  }

  /** `transformAttribute`: performs the builder call of `Decode`, or throws and leaves the builder alone. */
  method TransformAttribute(a: Attribute, b: MatchingDatasetBuilder) returns (r: Outcome<Failure>)
    modifies b
    ensures Decode(a).Success? ==> r == Pass && b.Snapshot() == Apply(old(b.Snapshot()), Decode(a).value)
    ensures Decode(a).Failure? ==> r == Fail(Decode(a).error) && b.Snapshot() == old(b.Snapshot())
  {
    EidasNamesDistinct();
    if a.name == EidasFirstName {
      var names := TransformEidasGivenNameAttribute(a);
      if names.Failure? {
        return Fail(names.error);
      }
      b.Firstname(names.value);
    } else if a.name == EidasFamilyName {
      var names := TransformEidasFamilyNameAttribute(a);
      if names.Failure? {
        return Fail(names.error);
      }
      b.AddSurnames(names.value);
    } else if a.name == EidasDateOfBirth {
      var dates := TransformEidasDateOfBirthAttribute(a);
      if dates.Failure? {
        return Fail(dates.error);
      }
      b.DateOfBirth(dates.value);
    } else if a.name == EidasPersonIdentifier {
      // the personal identifier is read by `GetPersonalIdentifier`, not here
    } else {
      return Fail(IllegalArgument(UnsupportedMessage(a.name, UnsupportedProfile)));
    }
    return Pass;
  }

  /**
   * `getPersonalIdentifier`: the identifier in the first value of the first
   * PersonIdentifier attribute of the first attribute statement.
   */
  function GetPersonalIdentifier(assertion: Assertion): (r: Result<string, Failure>)
    ensures |assertion.attributeStatements| == 0 ==> r == Failure(IndexOutOfBounds)
    ensures |assertion.attributeStatements| > 0 ==>
      var attrs := assertion.attributeStatements[0].attributes;
      ((forall k :: 0 <= k < |attrs| ==> attrs[k].name != EidasPersonIdentifier) <==>
        r == Failure(IllegalArgument(NoPersonalIdentifierMessage)))
    ensures r.Success? ==> (
      && |assertion.attributeStatements| > 0
      && var attrs := assertion.attributeStatements[0].attributes;
        exists i :: 0 <= i < |attrs| && attrs[i].name == EidasPersonIdentifier &&
          (forall k :: 0 <= k < i ==> attrs[k].name != EidasPersonIdentifier) &&
          |attrs[i].values| > 0 && attrs[i].values[0] == PersonIdentifier(r.value))
  {
    if |assertion.attributeStatements| == 0 then Failure(IndexOutOfBounds)
    else
      var attrs := assertion.attributeStatements[0].attributes;
      match FirstNamed(attrs, EidasPersonIdentifier)
      case None => Failure(IllegalArgument(NoPersonalIdentifierMessage))
      case Some(i) =>
        if |attrs[i].values| == 0 then Failure(IndexOutOfBounds)
        else if attrs[i].values[0].PersonIdentifier? then Success(attrs[i].values[0].personIdentifier)
        else Failure(ClassCast)
  }

  /** Conversely, the first PersonIdentifier attribute decides the outcome, whatever follows it. */
  lemma GetPersonalIdentifierFirst(assertion: Assertion, i: nat)
    requires |assertion.attributeStatements| > 0
    requires var attrs := assertion.attributeStatements[0].attributes;
      i < |attrs| && attrs[i].name == EidasPersonIdentifier && forall k :: 0 <= k < i ==> attrs[k].name != EidasPersonIdentifier
    ensures var v := assertion.attributeStatements[0].attributes[i].values;
      GetPersonalIdentifier(assertion) ==
        if |v| == 0 then Failure(IndexOutOfBounds)
        else if v[0].PersonIdentifier? then Success(v[0].personIdentifier)
        else Failure(ClassCast)
  {
  }

  /** What each decoded attribute adds to each field, stated for the decoder as a function value. */
  lemma DecoderContributions()
    ensures forall a :: Decoder()(a).Success? ==> FirstnamesAdded(Decoder()(a).value) == if a.name == EidasFirstName then GivenNamesOf(a) else []
    ensures forall a :: Decoder()(a).Success? ==> MiddlenamesAdded(Decoder()(a).value) == []
    ensures forall a :: Decoder()(a).Success? ==> SurnamesAdded(Decoder()(a).value) == if a.name == EidasFamilyName then FamilyNamesOf(a) else []
    ensures forall a :: Decoder()(a).Success? ==> DatesOfBirthAdded(Decoder()(a).value) == if a.name == EidasDateOfBirth then DatesOfBirthOf(a) else []
    ensures forall a :: Decoder()(a).Success? ==> CurrentAddressesAdded(Decoder()(a).value) == []
    ensures forall a :: Decoder()(a).Success? ==> PreviousAddressesAdded(Decoder()(a).value) == []
    ensures forall a :: Decoder()(a).Success? ==> GenderWritten(Decoder()(a).value).None?
    ensures forall a :: Decoder()(a).Success? ==> PersonalIdWritten(Decoder()(a).value).None?
  {
  }

  /**
   * The dataset eIDAS attributes build: given names, family names and dates
   * of birth in attribute order, and nothing else at all: no middle names, no
   * addresses, no gender and no personal identifier.
   */
  lemma EidasDataset(attrs: seq<Attribute>)
    requires Fold(Decoder(), EmptyDataset, attrs).Success?
    ensures var ds := Fold(Decoder(), EmptyDataset, attrs).value;
      && ds.firstNames == Collected(attrs, EidasFirstName, GivenNamesOf)
      && ds.middleNames == []
      && ds.surnames == Collected(attrs, EidasFamilyName, FamilyNamesOf)
      && ds.dateOfBirths == Collected(attrs, EidasDateOfBirth, DatesOfBirthOf)
      && ds.currentAddresses == [] && ds.previousAddresses == []
      && ds.gender == None
      && ds.personalId == []
  {
    var decode := Decoder();
    DecoderContributions();
    FirstNamesCollected(decode, EidasFirstName, GivenNamesOf, EmptyDataset, attrs);
    MiddleNamesCollected(decode, MdsMiddlename, Nothing, EmptyDataset, attrs);
    CollectedNothing<SimpleMdsValue<string>>(attrs, MdsMiddlename);
    SurnamesCollected(decode, EidasFamilyName, FamilyNamesOf, EmptyDataset, attrs);
    DateOfBirthsCollected(decode, EidasDateOfBirth, DatesOfBirthOf, EmptyDataset, attrs);
    CurrentAddressesCollected(decode, MdsCurrentAddress, Nothing, EmptyDataset, attrs);
    CollectedNothing<Address>(attrs, MdsCurrentAddress);
    PreviousAddressesCollected(decode, MdsPreviousAddress, Nothing, EmptyDataset, attrs);
    CollectedNothing<Address>(attrs, MdsPreviousAddress);
    GenderUnwritten(decode, EmptyDataset, attrs);
    PersonalIdUnwritten(decode, EmptyDataset, attrs);
  }

  /** An eIDAS Gender attribute anywhere in the statement makes the whole fold throw. */
  lemma GenderAttributeRejected(attrs: seq<Attribute>, i: nat)
    requires i < |attrs| && attrs[i].name == EidasGender
    ensures Fold(Decoder(), EmptyDataset, attrs).Failure?
  {
    EidasNamesDistinct();
    assert Decoder()(attrs[i]).Failure?;
    FoldFails(Decoder(), EmptyDataset, attrs);
  }
}
