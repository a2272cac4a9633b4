/**
 * The matching-dataset unmarshaller for assertions from eIDAS countries whose
 * attributes carry Verify-style values under eIDAS attribute names.
 */
module CountryMatchingDatasetUnmarshaller {
  import opened Wrappers
  import opened SamlObjects
  import opened MatchingDatasets
  import opened MatchingDatasetBuilders
  import opened MatchingDatasetUnmarshallerBase

  /** The attribute names the Country dispatcher accepts. */
  predicate IsSupported(name: string)
  {
    name in {EidasFirstName, EidasFamilyName, EidasGender, EidasDateOfBirth, EidasCurrentAddress, EidasPersonIdentifier}
  }

  const UnsupportedProfile := "Eidas "

  /** `transformAttribute` on values: the builder call one attribute causes, or the exception it throws. */
  function Decode(c: Collaborators, a: Attribute): (r: Result<Mutation, Failure>)
    ensures !IsSupported(a.name) <==> r == Failure(IllegalArgument(UnsupportedMessage(a.name, UnsupportedProfile)))
    ensures a.name in {EidasFirstName, EidasFamilyName} ==>
      (r.Success? <==> forall i :: 0 <= i < |a.values| ==> PersonNameEntry(a.values[i]).Some?)
    ensures a.name == EidasGender ==>
      (r.Success? <==> |a.values| > 0 && a.values[0].StringBasedMds? && a.values[0].element == GenderElement)
    ensures a.name == EidasDateOfBirth ==> (r.Success? <==> forall i :: 0 <= i < |a.values| ==> a.values[i].StringBasedMds?)
    ensures a.name == EidasCurrentAddress ==> r.Success?
    ensures a.name == EidasPersonIdentifier ==> (r.Success? <==> forall i :: 0 <= i < |a.values| ==> a.values[i].PersonIdentifier?)
    ensures r.Failure? && IsSupported(a.name) ==> r.error == if a.name == EidasGender && |a.values| == 0 then IndexOutOfBounds else ClassCast
    ensures r.Success? ==> FirstnamesAdded(r.value) == if a.name == EidasFirstName then PersonNamesOf(a) else []
    ensures r.Success? ==> MiddlenamesAdded(r.value) == []
    ensures r.Success? ==> SurnamesAdded(r.value) == if a.name == EidasFamilyName then PersonNamesOf(a) else []
    ensures r.Success? ==> GenderWritten(r.value) == if a.name == EidasGender then Some(GenderOfAttribute(c)(a)) else None
    ensures r.Success? ==> DatesOfBirthAdded(r.value) == if a.name == EidasDateOfBirth then BirthdatesOf(c.parseDate)(a) else []
    ensures r.Success? ==> CurrentAddressesAdded(r.value) == if a.name == EidasCurrentAddress then c.createAddresses(a) else []
    ensures r.Success? ==> PreviousAddressesAdded(r.value) == []
    ensures r.Success? ==> PersonalIdWritten(r.value) == if a.name == EidasPersonIdentifier then Some(PersonalIdsOf(a)) else None
  {
    EidasNamesDistinct();
    if a.name == EidasFirstName then
      match CastEach(a.values, PersonNameEntry)
      case Success(names) => Success(AddFirstnames(names))
      case Failure(e) => Failure(e)
    else if a.name == EidasFamilyName then
      match CastEach(a.values, PersonNameEntry)
      case Success(names) => Success(AddSurnames(names))
      case Failure(e) => Failure(e)
    else if a.name == EidasGender then
      match GenderEntry(c, a)
      case Success(gender) => Success(SetGender(Some(gender)))
      case Failure(e) => Failure(e)
    else if a.name == EidasDateOfBirth then
      match CastEach(a.values, BirthdateEntry(c.parseDate))
      case Success(dates) => Success(AddDatesOfBirth(dates))
      case Failure(e) => Failure(e)
    else if a.name == EidasCurrentAddress then
      Success(AddCurrentAddresses(c.createAddresses(a)))
    else if a.name == EidasPersonIdentifier then
      match CastEach(a.values, PersonalIdEntry)
      case Success(ids) => Success(SetPersonalId(ids))
      case Failure(e) => Failure(e)
    else
      Failure(IllegalArgument(UnsupportedMessage(a.name, UnsupportedProfile)))
  }

  function Decoder(c: Collaborators): Attribute -> Result<Mutation, Failure>
  {
    (a: Attribute) => Decode(c, a)
  }

  /** `transformAttribute`: performs the builder call of `Decode`, or throws and leaves the builder alone. */
  method TransformAttribute(c: Collaborators, a: Attribute, b: MatchingDatasetBuilder) returns (r: Outcome<Failure>)
    modifies b
    ensures Decode(c, a).Success? ==> r == Pass && b.Snapshot() == Apply(old(b.Snapshot()), Decode(c, a).value)
    ensures Decode(c, a).Failure? ==> r == Fail(Decode(c, a).error) && b.Snapshot() == old(b.Snapshot())
  {
    EidasNamesDistinct();
    if a.name == EidasFirstName {
      var names := TransformPersonNameAttribute(a);
      if names.Failure? {
        return Fail(names.error);
      }
      b.Firstname(names.value);
    } else if a.name == EidasFamilyName {
      var names := TransformPersonNameAttribute(a);
      if names.Failure? {
        return Fail(names.error);
      }
      b.AddSurnames(names.value);
    } else if a.name == EidasGender {
      if |a.values| == 0 {
        return Fail(IndexOutOfBounds);
      }
      match a.values[0]
      case StringBasedMds(GenderElement, value, from, to, verified) =>
        b.Gender(Some(SimpleMdsValue(c.genderFromString(value), from, to, verified)));
      case _ =>
        return Fail(ClassCast);
    } else if a.name == EidasDateOfBirth {
      var dates := GetBirthdates(c, a);
      if dates.Failure? {
        return Fail(dates.error);
      }
      b.DateOfBirth(dates.value);
    } else if a.name == EidasCurrentAddress {
      var transformedCurrentAddresses := c.createAddresses(a);
      b.AddCurrentAddresses(transformedCurrentAddresses);
    } else if a.name == EidasPersonIdentifier {
      var ids := GetPersonalIds(a);
      if ids.Failure? {
        return Fail(ids.error);
      }
      b.PersonalId(ids.value);
    } else {
      return Fail(IllegalArgument(UnsupportedMessage(a.name, UnsupportedProfile)));
    }
    return Pass;
  }

  /** What each decoded attribute adds to each field, stated for the decoder as a function value. */
  lemma DecoderContributions(c: Collaborators)
    ensures forall a :: Decoder(c)(a).Success? ==> FirstnamesAdded(Decoder(c)(a).value) == if a.name == EidasFirstName then PersonNamesOf(a) else []
    ensures forall a :: Decoder(c)(a).Success? ==> MiddlenamesAdded(Decoder(c)(a).value) == []
    ensures forall a :: Decoder(c)(a).Success? ==> SurnamesAdded(Decoder(c)(a).value) == if a.name == EidasFamilyName then PersonNamesOf(a) else []
    ensures forall a :: Decoder(c)(a).Success? ==> DatesOfBirthAdded(Decoder(c)(a).value) == if a.name == EidasDateOfBirth then BirthdatesOf(c.parseDate)(a) else []
    ensures forall a :: Decoder(c)(a).Success? ==> CurrentAddressesAdded(Decoder(c)(a).value) == if a.name == EidasCurrentAddress then c.createAddresses(a) else []
    ensures forall a :: Decoder(c)(a).Success? ==> PreviousAddressesAdded(Decoder(c)(a).value) == []
    ensures forall a :: Decoder(c)(a).Success? ==> GenderWritten(Decoder(c)(a).value) == if a.name == EidasGender then Some(GenderOfAttribute(c)(a)) else None
    ensures forall a :: Decoder(c)(a).Success? ==> PersonalIdWritten(Decoder(c)(a).value) == if a.name == EidasPersonIdentifier then Some(PersonalIdsOf(a)) else None
  {
  }

  /**
   * The dataset a country's attributes build: first names, surnames, dates of
   * birth and current addresses in attribute order, the gender and personal
   * identifiers of the last attributes of those names, and never a middle
   * name or a previous address.
   */
  lemma CountryDataset(c: Collaborators, attrs: seq<Attribute>)
    requires Fold(Decoder(c), EmptyDataset, attrs).Success?
    ensures var ds := Fold(Decoder(c), EmptyDataset, attrs).value;
      && ds.firstNames == Collected(attrs, EidasFirstName, PersonNamesOf)
      && ds.middleNames == []
      && ds.surnames == Collected(attrs, EidasFamilyName, PersonNamesOf)
      && ds.dateOfBirths == Collected(attrs, EidasDateOfBirth, BirthdatesOf(c.parseDate))
      && ds.currentAddresses == Collected(attrs, EidasCurrentAddress, c.createAddresses)
      && ds.previousAddresses == []
      && ds.gender == (match LastNamed(attrs, EidasGender) case None => None case Some(i) => GenderOfAttribute(c)(attrs[i]))
      && ds.personalId == (match LastNamed(attrs, EidasPersonIdentifier) case None => [] case Some(i) => PersonalIdsOf(attrs[i]))
  {
    var decode := Decoder(c);
    DecoderContributions(c);
    FirstNamesCollected(decode, EidasFirstName, PersonNamesOf, EmptyDataset, attrs);
    MiddleNamesCollected(decode, MdsMiddlename, Nothing, EmptyDataset, attrs);
    CollectedNothing<SimpleMdsValue<string>>(attrs, MdsMiddlename);
    SurnamesCollected(decode, EidasFamilyName, PersonNamesOf, EmptyDataset, attrs);
    DateOfBirthsCollected(decode, EidasDateOfBirth, BirthdatesOf(c.parseDate), EmptyDataset, attrs);
    CurrentAddressesCollected(decode, EidasCurrentAddress, c.createAddresses, EmptyDataset, attrs);
    PreviousAddressesCollected(decode, MdsPreviousAddress, Nothing, EmptyDataset, attrs);
    CollectedNothing<Address>(attrs, MdsPreviousAddress);
    GenderLastNamed(decode, EidasGender, GenderOfAttribute(c), EmptyDataset, attrs);
    PersonalIdLastNamed(decode, EidasPersonIdentifier, PersonalIdsOf, EmptyDataset, attrs);
  }
}
